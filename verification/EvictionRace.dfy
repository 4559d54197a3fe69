/** The race inside an eviction: a thread reads which item has to go for a queued item, a child's
    parent, and only then marks that item. In between, others may hand the chain to another parent
    and use the slot of the item read for a new one. */
module EvictionRace {
  import opened Basics
  import opened Chains
  import opened Slots
  import ItemStore

  type ThreadId = int

  /** What a thread has read while it holds the lock of the queue `x` is in. */
  datatype Look = Look(
    x: Item, child: bool, candidate: Item,
    // history: whether the candidate was out of a container at any time since
    left: bool)

  datatype World = World(s: State, looks: map<ThreadId, Look>)

  datatype Action =
    | Other(op: Op)
    | Read(t: ThreadId, x: Item)
    | Skip(t: ThreadId)
    | Take(t: ThreadId)

  /** Nobody takes an item out of a queue somebody else has locked. */
  ghost predicate StillQueued(s: State, looks: map<ThreadId, Look>) {
    forall t :: t in looks ==> looks[t].x in s.inMM
  }

  /** Once the candidate is marked, its item leaves the queue, unless its parent is another by now. */
  ghost function Dequeued(s: State, l: Look): State {
    if l.x !in s.parentOf || s.parentOf[l.x] == l.candidate then s.(inMM := s.inMM - {l.x}) else s
  }

  /** Then the candidate is unlinked and released; marking it can fail. */
  ghost function Taken(s: State, l: Look): State {
    if Markable(s, l.candidate) then
      WithReleased(Unlinked(Dequeued(s, l), l.candidate), l.candidate, Some(l.x))
    else s
  }

  /** The slot the eviction returns; without one it goes on searching. */
  ghost function Returned(s: State, l: Look): Option<Item> {
    if Markable(s, l.candidate) &&
       ItemStore.Outcome(Unlinked(Dequeued(s, l), l.candidate), l.candidate, Some(l.x)) == Recycled
    then Some(l.x) else None
  }

  ghost predicate InBoth(s: State, c: Item) {
    c in s.inMM && c in s.accessible
  }

  ghost function Watched(looks: map<ThreadId, Look>, s: State): map<ThreadId, Look> {
    map t | t in looks :: looks[t].(left := looks[t].left || !InBoth(s, looks[t].candidate))
  }

  ghost predicate Possible(w: World, a: Action) {
    match a
    case Other(op) => Enabled(w.s, op) && StillQueued(Apply(w.s, op), w.looks)
    case Read(t, x) => t !in w.looks && x in w.s.inMM && (forall u :: u in w.looks ==> w.looks[u].x != x)
    case Skip(t) => t in w.looks
    case Take(t) => t in w.looks && StillQueued(Taken(w.s, w.looks[t]), w.looks - {t})
  }

  ghost function Glance(s: State, x: Item): Look {
    Look(x, x in s.parentOf, Candidate(s, x), !InBoth(s, Candidate(s, x)))
  }

  ghost function Next(w: World, a: Action): World
    requires Possible(w, a)
  {
    match a
    case Other(op) => World(Apply(w.s, op), Watched(w.looks, Apply(w.s, op)))
    case Read(t, x) => w.(looks := w.looks[t := Glance(w.s, x)])
    case Skip(t) => w.(looks := w.looks - {t})
    case Take(t) => World(Taken(w.s, w.looks[t]), Watched(w.looks - {t}, Taken(w.s, w.looks[t])))
  }

  ghost predicate AllPossible(w: World, acts: seq<Action>)
    decreases |acts|
  {
    acts == [] || (Possible(w, acts[0]) && AllPossible(Next(w, acts[0]), acts[1..]))
  }

  ghost function After(w: World, acts: seq<Action>): World
    requires AllPossible(w, acts)
    decreases |acts|
  {
    if acts == [] then w else After(Next(w, acts[0]), acts[1..])
  }

  // ---------- the invariant ----------

  /** A queued item stays a child, or stays none; its parent may change, but not while the parent
      stays linked. */
  ghost predicate LookOk(s: State, l: Look) {
    && l.x in s.inMM && (l.child <==> l.x in s.parentOf) && (!l.child ==> l.candidate == l.x)
    && (!l.left ==> InBoth(s, l.candidate) && Candidate(s, l.x) == l.candidate)
  }

  ghost predicate Inv(w: World) {
    Valid(w.s) && (forall t :: t in w.looks ==> LookOk(w.s, w.looks[t]))
  }

  lemma ReleasedStays(s: State, y: Item, r: Option<Item>, x: Item)
    requires x != y && x in WithReleased(s, y, r).inMM
    ensures x in s.parentOf <==> x in WithReleased(s, y, r).parentOf
  {
    hide Zeroed, Kept;
  }

  lemma DropStays(s: State, y: Item, x: Item)
    requires Enabled(s, Drop(y)) && x in s.inMM && x in Apply(s, Drop(y)).inMM
    ensures x in s.parentOf <==> x in Apply(s, Drop(y)).parentOf
  {
    hide WithReleased;
    var s1 := WithHandles(s, y, s.handles[y] - 1);
    if Drained(s1, y) {
      ReleasedStays(s1, y, None, x);
    }
  }

  lemma LinkedKid(s: State, p: Item, x: Item)
    requires Valid(s) && p in s.chains && x in s.chains[p]
    ensures x in s.kids
  {
    ChainFacts(s, p);
  }

  lemma MoveStays(s: State, p: Item, i: nat, y: Item, x: Item)
    requires Valid(s) && Enabled(s, MoveChild(p, i, y)) && x in s.inMM && x in Apply(s, MoveChild(p, i, y)).inMM
    ensures x in s.parentOf <==> x in Apply(s, MoveChild(p, i, y)).parentOf
  {
    hide WithReleased, Rehooked, Substituted, Valid;
    var z := s.chains[p][i];
    assert z in s.chains[p];
    LinkedKid(s, p, z);
    var s1 := WithHandles(WithReplaced(s, p, i, y), z, 0);
    ReleasedQueue(s1, z, None);
    ReleasedStays(s1, z, None, x);
  }

  lemma EvictStays(s: State, y: Item, x: Item)
    requires Enabled(s, Evict(y)) && x in s.inMM && x in Apply(s, Evict(y)).inMM
    ensures x in s.parentOf <==> x in Apply(s, Evict(y)).parentOf
  {
    hide WithReleased, Candidate;
    var c := Candidate(s, y);
    ReleasedQueue(Unlinked(s, c), c, Some(y));
    ReleasedStays(Unlinked(s, c), c, Some(y), x);
  }

  lemma TransferStays(s: State, p: Item, q: Item, x: Item)
    requires Enabled(s, Transfer(p, q))
    ensures x in s.parentOf <==> x in Apply(s, Transfer(p, q)).parentOf
  {
    hide Transferred;
  }

  lemma TwinStays(s: State, p: Item, q: Item, x: Item)
    requires p in s.chains ==> p in s.heads
    ensures var s' := Twin(s, p, q);
            && s'.inMM == s.inMM && s'.accessible == s.accessible && (x in s'.parentOf <==> x in s.parentOf)
            && (x in s.parentOf && !(p in s.chains && x in s.chains[p]) ==> s'.parentOf[x] == s.parentOf[x])
  {
    hide Transferred;
  }

  lemma ItemStays(s: State, p: Item, q: Item, x: Item)
    requires Enabled(s, MoveItem(p, q)) && x in s.live && x in s.inMM && x in Apply(s, MoveItem(p, q)).inMM
    ensures x in s.parentOf <==> x in Apply(s, MoveItem(p, q)).parentOf
  {
    hide WithReleased, Twin;
    TwinStays(s, p, q, x);
    var s1 := Unlinked(WithHandles(Inserted(Twin(s, p, q), q), q, 0), p);
    ReleasedQueue(s1, p, None);
    ReleasedStays(s1, p, None, x);
  }

  lemma QueuedStays(s: State, op: Op, x: Item)
    requires Valid(s) && Enabled(s, op) && x in s.inMM && x in Apply(s, op).inMM
    ensures x in s.parentOf <==> x in Apply(s, op).parentOf
  {
    hide Valid, WithReleased, WithTransferred, Dropped, Evicted, CanAdd, Pushed, Popped, Substituted, Rehooked, Held,
         Placed;
    hide Moved, Succeeded;
    QueuedIsLive(s, x);
    match op {
      case Drop(y) => DropStays(s, y, x);
      case MoveChild(p, i, y) => MoveStays(s, p, i, y, x);
      case Evict(y) => EvictStays(s, y, x);
      case Transfer(p, q) => TransferStays(s, p, q, x);
      case MoveItem(p, q) => ItemStays(s, p, q, x);
      case _ =>
    }
  }

  // ---------- a linked parent keeps its children ----------

  lemma ReleasedParent(s: State, y: Item, r: Option<Item>, x: Item)
    requires x in s.parentOf && x in WithReleased(s, y, r).parentOf
    ensures WithReleased(s, y, r).parentOf[x] == s.parentOf[x]
  {
  }

  lemma DropParent(s: State, y: Item, x: Item)
    requires Enabled(s, Drop(y)) && x in s.parentOf && x in Apply(s, Drop(y)).parentOf
    ensures Apply(s, Drop(y)).parentOf[x] == s.parentOf[x]
  {
    hide WithReleased;
    var s1 := WithHandles(s, y, s.handles[y] - 1);
    if Drained(s1, y) {
      ReleasedParent(s1, y, None, x);
    }
  }

  lemma MoveParent(s: State, p: Item, i: nat, y: Item, x: Item)
    requires Enabled(s, MoveChild(p, i, y)) && x in s.parentOf && x in Apply(s, MoveChild(p, i, y)).parentOf
    ensures Apply(s, MoveChild(p, i, y)).parentOf[x] == s.parentOf[x]
  {
    hide WithReleased, Rehooked, Substituted;
    var z := s.chains[p][i];
    ReleasedParent(WithHandles(WithReplaced(s, p, i, y), z, 0), z, None, x);
  }

  lemma EvictParent(s: State, y: Item, x: Item)
    requires Enabled(s, Evict(y)) && x in s.parentOf && x in Apply(s, Evict(y)).parentOf
    ensures Apply(s, Evict(y)).parentOf[x] == s.parentOf[x]
  {
    hide WithReleased, Candidate;
    var c := Candidate(s, y);
    ReleasedParent(Unlinked(s, c), c, Some(y), x);
  }

  lemma ChildOf(s: State, p: Item, x: Item)
    requires Valid(s)
    ensures p in s.chains && x in s.chains[p] ==> x in s.parentOf && s.parentOf[x] == p
  {
    if p in s.chains {
      ChainFacts(s, p);
    }
  }

  /** Handing a chain over takes its parent out of both containers, if it was in both. */
  lemma TransferParent(s: State, p: Item, q: Item, x: Item)
    requires Valid(s) && Enabled(s, Transfer(p, q)) && x in s.parentOf && x in s.inMM
    requires InBoth(s, s.parentOf[x]) && InBoth(Apply(s, Transfer(p, q)), s.parentOf[x])
    ensures var s' := Apply(s, Transfer(p, q)); x in s'.parentOf && s'.parentOf[x] == s.parentOf[x]
  {
    hide Transferred, Valid;
    ChildOf(s, p, x);
  }

  lemma ItemParent(s: State, p: Item, q: Item, x: Item)
    requires Valid(s) && Enabled(s, MoveItem(p, q)) && x in s.parentOf && x in s.inMM
    requires x in Apply(s, MoveItem(p, q)).parentOf
    requires InBoth(s, s.parentOf[x]) && InBoth(Apply(s, MoveItem(p, q)), s.parentOf[x])
    ensures Apply(s, MoveItem(p, q)).parentOf[x] == s.parentOf[x]
  {
    hide WithReleased, Twin, Valid;
    ChildOf(s, p, x);
    QueuedIsLive(s, x);
    QueuedIsLive(s, s.parentOf[x]);
    TwinStays(s, p, q, x);
    TwinStays(s, p, q, s.parentOf[x]);
    var s1 := Unlinked(WithHandles(Inserted(Twin(s, p, q), q), q, 0), p);
    ReleasedQueue(s1, p, None);
    assert s.parentOf[x] in s1.inMM;
    assert s.parentOf[x] != p;
    ReleasedParent(s1, p, None, x);
  }

  lemma ParentStays(s: State, op: Op, x: Item)
    requires Valid(s) && Enabled(s, op) && x in s.inMM && x in Apply(s, op).inMM
    requires InBoth(s, Candidate(s, x)) && InBoth(Apply(s, op), Candidate(s, x))
    ensures Candidate(Apply(s, op), x) == Candidate(s, x)
  {
    hide Valid, WithReleased, WithTransferred, Dropped, Evicted, CanAdd, Pushed, Popped, Substituted, Rehooked, Held,
         Placed;
    hide Moved, Succeeded, InBoth;
    QueuedStays(s, op, x);
    QueuedIsLive(s, x);
    if x in s.parentOf {
      match op {
        case Drop(y) => DropParent(s, y, x);
        case MoveChild(p, i, y) => MoveParent(s, p, i, y, x);
        case Evict(y) => EvictParent(s, y, x);
        case Transfer(p, q) => TransferParent(s, p, q, x);
        case MoveItem(p, q) => ItemParent(s, p, q, x);
        case _ =>
      }
    }
  }

  lemma ReleasedQueue(s: State, y: Item, r: Option<Item>)
    ensures WithReleased(s, y, r).inMM <= s.inMM
  {
  }

  lemma QueuedIsLive(s: State, x: Item)
    requires Valid(s) && x in s.inMM
    ensures x in s.live
  {
  }

  lemma MarkedIsFree(s: State, c: Item)
    requires Valid(s) && Markable(s, c)
    ensures c !in s.parentOf && c !in s.recycled && c in s.live && !Held(s, c)
  {
    hide Shape;
    KidLinked(s, c);
  }

  lemma InFamily(s: State, l: Look)
    requires Valid(s) && LookOk(s, l) && l.candidate !in s.parentOf
    ensures l.x in Family(s, l.candidate) <==> Candidate(s, l.x) == l.candidate
    ensures l.x in Family(s, l.candidate) <==> l.x !in s.parentOf || s.parentOf[l.x] == l.candidate
  {
    hide Shape;
    if l.x in s.parentOf {
      KidLinked(s, l.x);
      InChain(s, l.candidate, l.x);
    }
  }

  lemma InChain(s: State, p: Item, x: Item)
    requires Valid(s)
    ensures x in ChainOf(s.chains, p) <==> x in s.kids && x in s.parentOf && s.parentOf[x] == p
  {
    hide Shape, KidsOk, RefsOk, SlotsOk;
    ChildKey(s, p, x);
  }

  lemma SameRelease(s: State, x: Item, c: Item)
    requires x in Family(s, c)
    ensures WithReleased(Unlinked(s.(inMM := s.inMM - {x}), c), c, Some(x)) == WithReleased(Unlinked(s, c), c, Some(x))
  {
    var chain := Members(ChainOf(s.chains, c));
    assert s.inMM - {x} - {c} - chain == s.inMM - {c} - chain;
    hide Members, ChainOf, Zeroed;
  }

  /** Taking a candidate is releasing it: that the queued item may have left its queue before makes
      no difference, since it did so exactly if it is one of the family. */
  lemma TakenReleases(s: State, l: Look)
    requires Valid(s) && LookOk(s, l) && Markable(s, l.candidate)
    ensures Taken(s, l) == WithReleased(Unlinked(s, l.candidate), l.candidate, Some(l.x))
    ensures Returned(s, l) == Some(l.x) <==> l.x in Family(s, l.candidate)
    ensures l.x in Family(s, l.candidate) <==> Candidate(s, l.x) == l.candidate
  {
    hide Valid, WithReleased, Candidate;
    MarkedIsFree(s, l.candidate);
    InFamily(s, l);
    if l.x in Family(s, l.candidate) {
      SameRelease(s, l.x, l.candidate);
    }
  }

  lemma TakeValid(s: State, l: Look)
    requires Valid(s) && LookOk(s, l)
    ensures Valid(Taken(s, l))
  {
    if Markable(s, l.candidate) {
      hide ChainsOk, WithReleased, Family;
      var c := l.candidate;
      MarkedIsFree(s, c);
      TakenReleases(s, l);
      hide Taken;
      UnlinkValid(s, c, {c});
      assert {c} <= Family(Unlinked(s, c), c) by { OwnFamily(Unlinked(s, c), c); }
      ReleaseValid(Unlinked(s, c), c, Some(l.x), {c});
    }
  }

  ghost function Watch(l: Look, s: State): Look {
    l.(left := l.left || !InBoth(s, l.candidate))
  }

  lemma TakeKeepsLooks(s: State, l: Look, k: Look)
    requires Valid(s) && LookOk(s, l) && LookOk(s, k) && k.x in Taken(s, l).inMM
    ensures LookOk(Taken(s, l), Watch(k, Taken(s, l)))
  {
    if Markable(s, l.candidate) {
      MarkedIsFree(s, l.candidate);
      TakenReleases(s, l);
      hide Valid, Taken;
    }
  }

  lemma OtherKeepsLooks(s: State, op: Op, l: Look)
    requires Valid(s) && Enabled(s, op) && LookOk(s, l) && l.x in Apply(s, op).inMM
    ensures LookOk(Apply(s, op), Watch(l, Apply(s, op)))
  {
    hide Valid, Enabled, Apply, Candidate;
    QueuedStays(s, op, l.x);
    if !l.left && InBoth(Apply(s, op), l.candidate) {
      ParentStays(s, op, l.x);
    }
  }

  lemma ReadOk(s: State, x: Item)
    requires x in s.inMM
    ensures LookOk(s, Glance(s, x))
  {
  }

  lemma InvKept(w: World, a: Action)
    requires Inv(w) && Possible(w, a)
    ensures Inv(Next(w, a))
  {
    hide Valid, Enabled, Apply, Taken, LookOk, InBoth, Glance;
    var w' := Next(w, a);
    match a {
      case Other(op) =>
        ApplyValid(w.s, op);
        forall t | t in w'.looks ensures LookOk(w'.s, w'.looks[t]) {
          OtherKeepsLooks(w.s, op, w.looks[t]);
        }
      case Read(t, x) => ReadOk(w.s, x);
      case Skip(t) =>
      case Take(t) =>
        TakeValid(w.s, w.looks[t]);
        forall u | u in w'.looks ensures LookOk(w'.s, w'.looks[u]) {
          TakeKeepsLooks(w.s, w.looks[t], w.looks[u]);
        }
    }
  }

  lemma {:induction false} RunInv(w: World, acts: seq<Action>)
    requires Inv(w) && AllPossible(w, acts)
    ensures Inv(After(w, acts))
    decreases |acts|
  {
    if acts != [] {
      InvKept(w, acts[0]);
      hide Inv, Next, Possible;
      RunInv(Next(w, acts[0]), acts[1..]);
    }
  }

  // ---------- what every interleaving guarantees ----------

  /** Exactly the candidate's family is released, and every slot of it was handed out and is released
      once. The slot asked for is returned, and kept from being freed, if and only if it is still in
      that family; otherwise it stays as it was, in its queue and in the chain of its present parent, and
      the candidate, which is linked now, was not all the time since it was read. */
  ghost predicate ReleasesFamily(s: State, l: Look) {
    var s', chain, family := Taken(s, l), ChainOf(s.chains, l.candidate), Family(s, l.candidate);
    && family <= s.live && Distinct(chain) && l.candidate !in chain
    && (Returned(s, l) == Some(l.x) <==> l.x in family)
    && s'.live == s.live - family + (if l.x in family then {l.x} else {})
    && (l.x in family ==> l.x in s'.recycled && !Held(s', l.x) && !Placed(s', l.x))
    && (l.x !in family ==>
          && l.left
          && l.x in s.parentOf && l.x in s'.parentOf && s'.parentOf[l.x] == s.parentOf[l.x] && l.x in s'.inMM
          && ChainOf(s'.chains, s.parentOf[l.x]) == ChainOf(s.chains, s.parentOf[l.x]))
  }

  lemma FamilyLive(s: State, c: Item)
    requires Valid(s) && c in s.live && c !in s.parentOf
    ensures Family(s, c) <= s.live && Distinct(ChainOf(s.chains, c)) && c !in ChainOf(s.chains, c)
  {
    hide KidsOk;
    forall y | y in ChainOf(s.chains, c) ensures y in s.live && y != c {
      InChain(s, c, y);
    }
  }

  lemma TakenInside(s: State, l: Look)
    requires Valid(s) && LookOk(s, l) && Markable(s, l.candidate) && l.x in Family(s, l.candidate)
    ensures var s' := Taken(s, l);
            && s'.live == s.live - Family(s, l.candidate) + {l.x}
            && l.x in s'.recycled && !Held(s', l.x) && !Placed(s', l.x)
  {
    TakenReleases(s, l);
    TakeValid(s, l);
    hide Taken, ChainsOk, RefsOk, Markable;
    assert l.x in WithReleased(Unlinked(s, l.candidate), l.candidate, Some(l.x)).recycled;
    hide WithReleased;
  }

  lemma TakenOutside(s: State, l: Look)
    requires Valid(s) && LookOk(s, l) && Markable(s, l.candidate) && l.x !in Family(s, l.candidate)
    ensures var s' := Taken(s, l);
            && s'.live == s.live - Family(s, l.candidate) && l.left
            && l.x in s.parentOf && l.x in s'.parentOf && s'.parentOf[l.x] == s.parentOf[l.x] && l.x in s'.inMM
            && ChainOf(s'.chains, s.parentOf[l.x]) == ChainOf(s.chains, s.parentOf[l.x])
  {
    MarkedIsFree(s, l.candidate);
    InFamily(s, l);
    TakenReleases(s, l);
    hide Taken, Valid, Candidate, Markable;
    assert l.x != l.candidate && s.parentOf[l.x] != l.candidate;
  }

  lemma TakeReleasesFamily(s: State, l: Look)
    requires Valid(s) && LookOk(s, l) && Markable(s, l.candidate)
    ensures ReleasesFamily(s, l)
  {
    hide Taken, Valid, Returned, Candidate, Family, ChainOf, LookOk;
    MarkedIsFree(s, l.candidate);
    FamilyLive(s, l.candidate);
    TakenReleases(s, l);
    if l.x in Family(s, l.candidate) {
      TakenInside(s, l);
    } else {
      TakenOutside(s, l);
    }
  }

  /** So in every interleaving, whenever a candidate can be marked. */
  lemma EvictsFamily(acts: seq<Action>, t: ThreadId)
    requires AllPossible(World(EMPTY, map[]), acts)
    ensures var w := After(World(EMPTY, map[]), acts);
            t in w.looks && Markable(w.s, w.looks[t].candidate) ==> ReleasesFamily(w.s, w.looks[t])
  {
    RunInv(World(EMPTY, map[]), acts);
    var w := After(World(EMPTY, map[]), acts);
    hide AllPossible, After, Valid, ReleasesFamily;
    if t in w.looks && Markable(w.s, w.looks[t].candidate) {
      TakeReleasesFamily(w.s, w.looks[t]);
    }
  }
}
