/** The life of regular items under concurrency: the hash table and the eviction queues are two
    separately locked containers, so every cache operation is a sequence of atomic steps (one
    container operation, or one atomic update of an item's mark or reference count), and any
    number of threads interleave them freely.

    An `Item` is one allocation of a slot: recycling or reusing a slot starts a new item. A
    reference count is the number of live handles on the item. */
module LinkProtocol {
  import opened Basics

  type Item = int
  type HandleId = int
  type ThreadId = int

  /** The exclusive bit together with the hidden reference that tells moving from evicting.
      `Moving(true)` is the mark a slab release puts on a parent while it moves one of its children. */
  datatype Mark = Unmarked | Moving(forChild: bool) | Exclusive

  datatype ItemInfo = ItemInfo(key: Key, mark: Mark)

  /** Where a thread stands inside the operation it is running. An item reached through a handle
      is named together with that handle. */
  datatype Pc =
    | Idle
      // insert and insertOrReplace, once the item is queued
    | InsQueued(h: HandleId, i: Item)
    | RepQueued(h: HandleId, i: Item)
      // insertOrReplace met a moving item and waits for its handle
    | RepWaiting(h: HandleId, i: Item)
      // any operation left with unqueueing an item it holds
    | ToUnqueue(h: HandleId, i: Item)
      // replaceIfAccessible, once the new item is bound
    | SwapBound(h: HandleId, i: Item, n: HandleId, j: Item)
    | SwapHalf(n: HandleId, j: Item)
    | SwapFailed(n: HandleId, j: Item)
    | SwapQueued(n: HandleId, j: Item)
      // unlinking an item marked exclusive: ordinary eviction and eviction for slab release
    | EvMarked(i: Item)
    | EvUnbound(i: Item)
    | EvUnqueued(i: Item)
      // moving a regular item `i` into its copy `j` for slab release
    | MvMarked(i: Item)
    | MvQueued(i: Item, n: HandleId, j: Item)
    | MvBound(i: Item, n: HandleId, j: Item)
    | MvUnqueued(i: Item, n: HandleId, j: Item)
    | MvFailed(i: Item, n: HandleId, j: Item)
    | MvGiveUp(i: Item)
      // moving a child: its parent is marked
    | ChMarked(i: Item)
      // the last reference is gone; the slot goes back to the allocator
    | Freeing(i: Item)

  /** What the threads share. */
  datatype Cache = Cache(
    item: map<Item, ItemInfo>,
    free: set<Item>,
    table: map<Key, Item>,
    queue: set<Item>,
    handle: map<HandleId, Item>,
    // history: items given to an insertion so far
    inserted: set<Item>,
    // history: parents that insertOrReplace unbound while they were marked for a child's move
    overtaken: set<Item>)

  datatype State = State(cache: Cache, pc: map<ThreadId, Pc>)

  datatype Op =
    | Insert(h: HandleId)
    | InsertOrReplace(h: HandleId)
    | Remove(h: HandleId)
    | ReplaceIfAccessible(h: HandleId, n: HandleId)
      // `direct`: the candidate itself sits in the queue being searched and leaves it at once;
      // otherwise the search found one of its children
    | Evict(i: Item, direct: bool)
    | MoveItem(i: Item)
    | MoveChild(parent: Item)

  /** The outcomes of a step that the state does not decide. */
  datatype Choice =
    | Plain
      // the handle maker throws on reference count overflow
    | Throw
      // a handle is made under this id
    | Fresh(r: HandleId)
      // the handle a waiter is woken with is a clone of `source`
    | Woken(source: HandleId, r: HandleId)
      // the replacement lives in another eviction container
    | OtherContainer
      // the copy to move into, already allocated
    | Copy(n: HandleId)
      // give up moving: no move callback, no memory, or the item expired
    | GiveUp

  datatype Action =
    | Allocate(t: ThreadId, i: Item, k: Key, h: HandleId)
    | Find(t: ThreadId, k: Key, h: HandleId)
    | Clone(t: ThreadId, source: HandleId, h: HandleId)
    | Drop(t: ThreadId, h: HandleId)
    | Start(t: ThreadId, op: Op)
    | Advance(t: ThreadId, c: Choice)

  predicate Accessible(s: Cache, i: Item) {
    i in s.item && s.item[i].key in s.table && s.table[s.item[i].key] == i
  }

  predicate Held(s: Cache, i: Item) {
    exists h :: h in s.handle && s.handle[h] == i
  }

  predicate IsMarked(s: Cache, i: Item) {
    i in s.item && s.item[i].mark != Unmarked
  }

  /** No reference, not linked in either container, not exclusive. */
  predicate Drained(s: Cache, i: Item) {
    !Held(s, i) && i !in s.queue && !Accessible(s, i) && !IsMarked(s, i)
  }

  // ---------- what a program counter stands for ----------

  /** The handles a thread is using, which nobody drops meanwhile. */
  function Uses(pc: Pc): set<HandleId> {
    match pc
    case InsQueued(h, _) => {h}
    case RepQueued(h, _) => {h}
    case RepWaiting(h, _) => {h}
    case ToUnqueue(h, _) => {h}
    case SwapBound(h, _, n, _) => {h, n}
    case SwapHalf(n, _) => {n}
    case SwapFailed(n, _) => {n}
    case SwapQueued(n, _) => {n}
    case MvQueued(_, n, _) => {n}
    case MvBound(_, n, _) => {n}
    case MvUnqueued(_, n, _) => {n}
    case MvFailed(_, n, _) => {n}
    case _ => {}
  }

  /** The items a thread is responsible for:
      `own`, whose mark or whose return to the allocator is its business, with the mark it has put on it;
      `bind`, which it is about to bind, and `queue`, which it has bound and not queued;
      `care`, a queued item it holds and will still bind, unqueue or look at again;
      `minds` tells whether `own` may still be queued and will be unqueued or looked at again. */
  datatype Stake = Stake(
    own: Option<Item>, mark: Mark, bind: Option<Item>, queue: Option<Item>, care: Option<Item>, minds: bool)

  const NOTHING := Stake(None, Unmarked, None, None, None, false)

  function Owner(i: Item, m: Mark, minds: bool): Stake {
    NOTHING.(own := Some(i), mark := m, minds := minds)
  }

  function StakeOf(pc: Pc): Stake {
    match pc
    case Idle => NOTHING
    case InsQueued(_, i) => NOTHING.(bind := Some(i), care := Some(i))
    case RepQueued(_, i) => NOTHING.(bind := Some(i), care := Some(i))
    case RepWaiting(_, _) => NOTHING
    case ToUnqueue(_, i) => NOTHING.(care := Some(i))
    case SwapBound(_, i, _, j) => NOTHING.(queue := Some(j), care := Some(i))
    case SwapHalf(_, j) => NOTHING.(queue := Some(j))
    case SwapFailed(_, j) => NOTHING.(queue := Some(j))
    case SwapQueued(_, j) => NOTHING.(care := Some(j))
    case EvMarked(i) => Owner(i, Exclusive, true)
    case EvUnbound(i) => Owner(i, Exclusive, true)
    case EvUnqueued(i) => Owner(i, Exclusive, false)
    case MvMarked(i) => Owner(i, Moving(false), true)
    case MvQueued(i, _, j) => Owner(i, Moving(false), true).(bind := Some(j), care := Some(j))
    case MvBound(i, _, _) => Owner(i, Moving(false), true)
    case MvUnqueued(i, _, _) => Owner(i, Moving(false), false)
    case MvFailed(i, _, j) => Owner(i, Moving(false), true).(care := Some(j))
    case MvGiveUp(i) => Owner(i, Moving(false), true)
    case ChMarked(i) => Owner(i, Moving(true), true)
    case Freeing(i) => Owner(i, Unmarked, false)
  }

  // ---------- the atomic steps ----------

  function SetMark(s: Cache, i: Item, m: Mark): Cache
    requires i in s.item
  {
    s.(item := s.item[i := s.item[i].(mark := m)])
  }

  function Unbind(s: Cache, i: Item): Cache {
    if Accessible(s, i) then s.(table := s.table - {s.item[i].key}) else s
  }

  /** Binds `i`, recording in `lost` the parent it overtakes, if any. */
  function BindOver(s: Cache, i: Item, lost: set<Item>): Cache
    requires i in s.item
  {
    s.(table := s.table[s.item[i].key := i], inserted := s.inserted + {i}, overtaken := s.overtaken + lost)
  }

  function NewHandle(s: Cache, h: HandleId, i: Item): Cache {
    s.(handle := s.handle[h := i])
  }

  function Unqueue(s: Cache, i: Item): Cache {
    s.(queue := s.queue - {i})
  }

  /** Queues an item handed to an insertion. */
  function Enqueue(s: Cache, i: Item): Cache {
    s.(queue := s.queue + {i}, inserted := s.inserted + {i})
  }

  /** Each item is inserted at most once. */
  predicate Insertable(s: Cache, h: HandleId) {
    h in s.handle && s.handle[h] in s.item && !Accessible(s, s.handle[h]) && s.handle[h] !in s.inserted
  }

  /** Marking needs a linked item, not exclusive, with no reference. */
  predicate CanMark(s: Cache, i: Item) {
    i in s.item && i in s.queue && s.item[i].mark == Unmarked && !Held(s, i)
  }

  predicate CanStart(s: Cache, op: Op) {
    match op
    case Insert(h) => Insertable(s, h)
    case InsertOrReplace(h) => Insertable(s, h)
    case Remove(h) => h in s.handle
    case ReplaceIfAccessible(h, n) =>
      && h in s.handle && s.handle[h] in s.item && Insertable(s, n)
      && s.item[s.handle[h]].key == s.item[s.handle[n]].key
    case Evict(i, _) => CanMark(s, i)
    case MoveItem(i) => CanMark(s, i)
    case MoveChild(p) => CanMark(s, p)
  }

  function StartOp(s: Cache, op: Op): (Cache, Pc)
    requires CanStart(s, op)
  {
    match op
    case Insert(h) => (Enqueue(s, s.handle[h]), InsQueued(h, s.handle[h]))
    case InsertOrReplace(h) => (Enqueue(s, s.handle[h]), RepQueued(h, s.handle[h]))
    case Remove(h) => (Unbind(s, s.handle[h]), ToUnqueue(h, s.handle[h]))
    case ReplaceIfAccessible(h, n) =>
      var i, j := s.handle[h], s.handle[n];
      if Accessible(s, i) then (BindOver(s, j, {}), SwapBound(h, i, n, j)) else (s, Idle)
    case Evict(i, direct) =>
      var s1 := SetMark(s, i, Exclusive);
      (if direct then Unqueue(s1, i) else s1, EvMarked(i))
    case MoveItem(i) => (SetMark(s, i, Moving(false)), MvMarked(i))
    case MoveChild(p) => (SetMark(s, p, Moving(true)), ChMarked(p))
  }

  /** Which outcomes are open to a thread at `pc`. */
  predicate CanAdvance(s: Cache, pc: Pc, c: Choice) {
    && (StakeOf(pc).own.Some? ==> StakeOf(pc).own.value in s.item)
    && (StakeOf(pc).bind.Some? ==> StakeOf(pc).bind.value in s.item)
    && match pc {
         case Idle => false
         case RepQueued(_, i) =>
           var k := s.item[i].key;
           if k !in s.table then c == Plain
           else
             && s.table[k] in s.item
             && (c == Throw || (if IsMarked(s, s.table[k]) then c == Plain else c.Fresh? && c.r !in s.handle))
         case RepWaiting(_, _) => c == Plain || (c.Woken? && c.source in s.handle && c.r !in s.handle)
         case SwapBound(_, _, _, _) => c == Plain || c == OtherContainer
         case MvMarked(i) =>
           c == GiveUp || (c.Copy? && Insertable(s, c.n) && s.item[s.handle[c.n]].key == s.item[i].key)
         case ChMarked(_) => c == Plain || c == GiveUp
         case _ => c == Plain
       }
  }

  /** insertOrReplace in the table. The old item's handle is made under the same lock: it succeeds
      on an unmarked item, is null on an item being evicted, and is a pending handle on a moving
      one; on overflow the old binding is put back and the exception propagates. */
  function RepBind(s: Cache, h: HandleId, i: Item, c: Choice): (Cache, Pc)
    requires CanAdvance(s, RepQueued(h, i), c)
  {
    var k := s.item[i].key;
    if k !in s.table then (BindOver(s, i, {}), Idle)
    else if c == Throw then (s, ToUnqueue(h, i))
    else
      var prior := s.table[k];
      match s.item[prior].mark
      case Exclusive => (BindOver(s, i, {}), Idle)
      case Moving(forChild) => (BindOver(s, i, if forChild then {prior} else {}), RepWaiting(h, i))
      case Unmarked => (BindOver(NewHandle(s, c.r, prior), i, {}), ToUnqueue(c.r, prior))
  }

  function AdvanceOp(s: Cache, pc: Pc, c: Choice): (Cache, Pc)
    requires CanAdvance(s, pc, c)
  {
    match pc
    case Idle => (s, Idle)
    case InsQueued(h, i) =>
      if s.item[i].key in s.table then (s, ToUnqueue(h, i)) else (BindOver(s, i, {}), Idle)
    case RepQueued(h, i) => RepBind(s, h, i, c)
    case RepWaiting(h, i) =>
      if c == Plain then (s, Idle)
      else (NewHandle(s, c.r, s.handle[c.source]), ToUnqueue(c.r, s.handle[c.source]))
    case ToUnqueue(h, i) => (Unqueue(s, i), Idle)
    case SwapBound(h, i, n, j) =>
      if i !in s.queue || (c == Plain && j in s.queue) then (s, SwapFailed(n, j))
      else if c == OtherContainer then (Unqueue(s, i), SwapHalf(n, j))
      else (Enqueue(Unqueue(s, i), j), SwapQueued(n, j))
    case SwapHalf(n, j) =>
      if j in s.queue then (s, SwapFailed(n, j)) else (Enqueue(s, j), SwapQueued(n, j))
    case SwapFailed(n, j) => (Unbind(s, j), Idle)
    case SwapQueued(n, j) => (s, if Accessible(s, j) then Idle else ToUnqueue(n, j))
    case EvMarked(i) => (Unbind(s, i), EvUnbound(i))
    case EvUnbound(i) => (Unqueue(s, i), EvUnqueued(i))
    case EvUnqueued(i) => (SetMark(s, i, Unmarked), Freeing(i))
    case MvMarked(i) =>
      if c == GiveUp then (s, MvGiveUp(i))
      else (Enqueue(s, s.handle[c.n]), MvQueued(i, c.n, s.handle[c.n]))
    case MvQueued(i, n, j) =>
      if Accessible(s, i) then (BindOver(s, j, {}), MvBound(i, n, j)) else (s, MvFailed(i, n, j))
    case MvBound(i, n, j) => (Unqueue(s, i), MvUnqueued(i, n, j))
    case MvUnqueued(i, n, j) => (SetMark(s, i, Unmarked), Freeing(i))
    case MvFailed(i, n, j) => (Unqueue(s, j), MvGiveUp(i))
    case MvGiveUp(i) => (SetMark(s, i, Exclusive), EvMarked(i))
    case ChMarked(i) =>
      if c == GiveUp then (SetMark(s, i, Exclusive), EvMarked(i)) else (SetMark(s, i, Unmarked), Idle)
    case Freeing(i) => (s.(free := s.free + {i}), Idle)
  }

  /** Dropping a handle returns the slot to the allocator when it leaves the item drained. */
  function DropHandle(s: Cache, h: HandleId): (Cache, Pc)
    requires h in s.handle
  {
    var s1 := s.(handle := s.handle - {h});
    (s1, if Drained(s1, s.handle[h]) then Freeing(s.handle[h]) else Idle)
  }

  predicate Unused(s: State, h: HandleId) {
    forall u :: u in s.pc ==> h !in Uses(s.pc[u])
  }

  /** A thread begins something new only between operations. */
  predicate Enabled(s: State, a: Action) {
    var c := s.cache;
    && a.t in s.pc
    && match a {
         case Allocate(t, i, _, h) => s.pc[t] == Idle && i !in c.item && h !in c.handle
         case Find(t, _, h) => s.pc[t] == Idle && h !in c.handle
         case Clone(t, source, h) => s.pc[t] == Idle && source in c.handle && h !in c.handle
         case Drop(t, h) => s.pc[t] == Idle && h in c.handle && Unused(s, h)
         case Start(t, op) => s.pc[t] == Idle && CanStart(c, op)
         case Advance(t, ch) => CanAdvance(c, s.pc[t], ch)
       }
  }

  function Effects(s: State, a: Action): (Cache, Pc)
    requires Enabled(s, a)
  {
    var c := s.cache;
    match a
    case Allocate(t, i, k, h) => (NewHandle(c.(item := c.item[i := ItemInfo(k, Unmarked)]), h, i), Idle)
    case Find(t, k, h) =>
      if k in c.table && c.table[k] in c.item && !IsMarked(c, c.table[k])
      then (NewHandle(c, h, c.table[k]), Idle) else (c, Idle)
    case Clone(t, source, h) => (NewHandle(c, h, c.handle[source]), Idle)
    case Drop(t, h) => DropHandle(c, h)
    case Start(t, op) => StartOp(c, op)
    case Advance(t, ch) => AdvanceOp(c, s.pc[t], ch)
  }

  function Step(s: State, a: Action): State
    requires Enabled(s, a)
  {
    var (c, q) := Effects(s, a);
    State(c, s.pc[a.t := q])
  }

  // ---------- runs ----------

  function Init(threads: set<ThreadId>): State {
    State(Cache(map[], {}, map[], {}, map[], {}, {}), map t | t in threads :: Idle)
  }

  predicate Runs(s: State, acts: seq<Action>)
    decreases |acts|
  {
    acts == [] || (Enabled(s, acts[0]) && Runs(Step(s, acts[0]), acts[1..]))
  }

  function Exec(s: State, acts: seq<Action>): State
    requires Runs(s, acts)
    decreases |acts|
  {
    if acts == [] then s else Exec(Step(s, acts[0]), acts[1..])
  }

  predicate Quiet(s: State) {
    forall t :: t in s.pc ==> s.pc[t] == Idle
  }
}
