/** What each operation of the link protocol does to the lookup table, the queue and the handles,
    said of one step at a time and then of the operation in any interleaving. */
module LinkEffects {
  import opened Basics
  import opened LinkProtocol
  import opened LinkProofs

  /** Whatever the other threads do meanwhile, the thread's next step leaves `i` off the queue and
      ends the operation. */
  ghost predicate UnqueuesNext(s: State, t: ThreadId, i: Item) {
    t in s.pc && s.pc[t] != Idle
    && forall u: State, b: Action :: Enabled(u, b) && b.t == t && u.pc[t] == s.pc[t] ==>
         && Step(u, b).cache == u.cache.(queue := u.cache.queue - {i})
         && Step(u, b).pc[t] == Idle
  }

  /** The cache differs in its links and handles only. */
  predicate Relinked(s: Cache, s': Cache, table: map<Key, Item>, queue: set<Item>, handle: map<HandleId, Item>) {
    && s'.item == s.item && s'.free == s.free
    && s'.table == table && s'.queue == queue && s'.handle == handle
  }

  // ---------- insertOrReplace ----------

  lemma UnqueuesLast(s: State, t: ThreadId, h: HandleId, i: Item)
    requires t in s.pc && s.pc[t] == ToUnqueue(h, i)
    ensures UnqueuesNext(s, t, i)
  {
  }

  /** Both insertions queue the item first; the table does not change yet. */
  lemma InsertionStarts(s: State, a: Action)
    requires Enabled(s, a) && a.Start? && (a.op.Insert? || a.op.InsertOrReplace?)
    ensures var i, c := s.cache.handle[a.op.h], s.cache;
            && Relinked(c, Step(s, a).cache, c.table, c.queue + {i}, c.handle)
            && Step(s, a).pc[a.t] ==
               if a.op.Insert? then InsQueued(a.op.h, i) else RepQueued(a.op.h, i)
  {
  }

  /** Unless the handle maker throws, the key then names the new item, which stays queued. An old
      item nobody had marked is held by the thread, and its next step takes it off the queue; an
      item being evicted is left to its evictor; a moving one is waited for. */
  lemma ReplaceBinds(s: State, a: Action)
    requires Enabled(s, a) && a.Advance? && s.pc[a.t].RepQueued? && a.c != Throw
    ensures var i, c, s' := s.pc[a.t].i, s.cache, Step(s, a);
            var k := c.item[i].key;
            && Accessible(s'.cache, i)
            && (if k !in c.table || c.item[c.table[k]].mark == Exclusive then
                  Relinked(c, s'.cache, c.table[k := i], c.queue, c.handle) && s'.pc[a.t] == Idle
                else if c.item[c.table[k]].mark == Unmarked then
                  && UnqueuesNext(s', a.t, c.table[k])
                  && exists r :: r !in c.handle && r in Uses(s'.pc[a.t])
                       && Relinked(c, s'.cache, c.table[k := i], c.queue, c.handle[r := c.table[k]])
                else
                  && Relinked(c, s'.cache, c.table[k := i], c.queue, c.handle)
                  && s'.pc[a.t] == RepWaiting(s.pc[a.t].h, i))
  {
    var i, c, s' := s.pc[a.t].i, s.cache, Step(s, a);
    var k := c.item[i].key;
    if k in c.table && c.item[c.table[k]].mark == Unmarked {
      UnqueuesLast(s', a.t, a.c.r, c.table[k]);
      assert a.c.r !in c.handle && a.c.r in Uses(s'.pc[a.t]);
    }
  }

  /** When it throws, the old binding stands and the new item leaves the queue again. */
  lemma ReplaceThrows(s: State, a: Action)
    requires Enabled(s, a) && a.Advance? && s.pc[a.t].RepQueued? && a.c == Throw
    ensures Step(s, a).cache == s.cache
    ensures UnqueuesNext(Step(s, a), a.t, s.pc[a.t].i)
  {
    UnqueuesLast(Step(s, a), a.t, s.pc[a.t].h, s.pc[a.t].i);
  }

  /** Once the mover is done, the item woken with is held and leaves the queue next. */
  lemma ReplaceWoken(s: State, a: Action)
    requires Enabled(s, a) && a.Advance? && s.pc[a.t].RepWaiting? && a.c.Woken?
    ensures var c := s.cache;
            && Relinked(c, Step(s, a).cache, c.table, c.queue, c.handle[a.c.r := c.handle[a.c.source]])
            && UnqueuesNext(Step(s, a), a.t, c.handle[a.c.source])
  {
    UnqueuesLast(Step(s, a), a.t, a.c.r, s.cache.handle[a.c.source]);
  }

  // ---------- insert ----------

  /** The item is bound exactly when its key was free; otherwise it leaves the queue again. */
  lemma InsertBinds(s: State, a: Action)
    requires Enabled(s, a) && a.Advance? && s.pc[a.t].InsQueued?
    ensures var i, c, s' := s.pc[a.t].i, s.cache, Step(s, a);
            var k := c.item[i].key;
            if k in c.table then s'.cache == c && UnqueuesNext(s', a.t, i)
            else
              && Accessible(s'.cache, i) && s'.pc[a.t] == Idle
              && Relinked(c, s'.cache, c.table[k := i], c.queue, c.handle)
  {
    var i := s.pc[a.t].i;
    if s.cache.item[i].key in s.cache.table {
      UnqueuesLast(Step(s, a), a.t, s.pc[a.t].h, i);
    }
  }

  // ---------- remove ----------

  /** No key reaches the item any more, every other key names what it named, and the item leaves
      the queue next. */
  lemma RemoveUnlinks(s: State, a: Action)
    requires Enabled(s, a) && a.Start? && a.op.Remove?
    ensures var i, c, s' := s.cache.handle[a.op.h], s.cache, Step(s, a);
            && !Accessible(s'.cache, i)
            && Relinked(c, s'.cache, s'.cache.table, c.queue, c.handle)
            && (forall k :: k in c.table && !(Accessible(c, i) && k == c.item[i].key) ==>
                  k in s'.cache.table && s'.cache.table[k] == c.table[k])
            && s'.cache.table.Keys <= c.table.Keys
            && UnqueuesNext(s', a.t, i)
  {
    UnqueuesLast(Step(s, a), a.t, a.op.h, s.cache.handle[a.op.h]);
  }

  // ---------- replaceIfAccessible ----------

  /** The new item takes over the key exactly when the old one held it; nothing happens otherwise. */
  lemma SwapStarts(s: State, a: Action)
    requires Enabled(s, a) && a.Start? && a.op.ReplaceIfAccessible?
    ensures var i, j, c, s' := s.cache.handle[a.op.h], s.cache.handle[a.op.n], s.cache, Step(s, a);
            if Accessible(c, i) then
              && Accessible(s'.cache, j) && (i != j ==> !Accessible(s'.cache, i))
              && Relinked(c, s'.cache, c.table[c.item[j].key := j], c.queue, c.handle)
              && s'.pc[a.t] == SwapBound(a.op.h, i, a.op.n, j)
            else s' == s
  {
    if !Accessible(s.cache, s.cache.handle[a.op.h]) {
      assert s.pc[a.t := Idle] == s.pc;
    }
  }

  /** The new item takes the old one's place in the queue, at once in the same container and in two
      steps otherwise; when the old one is no longer queued, nothing changes and the new item is to
      be unbound. */
  lemma SwapRequeues(s: State, a: Action)
    requires Enabled(s, a) && a.Advance? && s.pc[a.t].SwapBound?
    ensures var p, c, s' := s.pc[a.t], s.cache, Step(s, a);
            if p.i in c.queue && (a.c == OtherContainer || p.j !in c.queue) then
              && p.i !in s'.cache.queue - {p.j}
              && Relinked(c, s'.cache, c.table,
                          c.queue - {p.i} + (if a.c == OtherContainer then {} else {p.j}), c.handle)
              && s'.pc[a.t] == if a.c == OtherContainer then SwapHalf(p.n, p.j) else SwapQueued(p.n, p.j)
            else s'.cache == c && s'.pc[a.t] == SwapFailed(p.n, p.j)
  {
  }

  lemma SwapQueues(s: State, a: Action)
    requires Enabled(s, a) && a.Advance? && s.pc[a.t].SwapHalf?
    ensures var p, c, s' := s.pc[a.t], s.cache, Step(s, a);
            if p.j in c.queue then s'.cache == c && s'.pc[a.t] == SwapFailed(p.n, p.j)
            else Relinked(c, s'.cache, c.table, c.queue + {p.j}, c.handle) && s'.pc[a.t] == SwapQueued(p.n, p.j)
  {
  }

  /** A swap that failed leaves the new item unreachable and the other keys alone. */
  lemma SwapUndone(s: State, a: Action)
    requires Enabled(s, a) && a.Advance? && s.pc[a.t].SwapFailed?
    ensures var j, c, s' := s.pc[a.t].j, s.cache, Step(s, a);
            && !Accessible(s'.cache, j) && s'.pc[a.t] == Idle
            && Relinked(c, s'.cache, s'.cache.table, c.queue, c.handle)
            && (forall k :: k in c.table && !(Accessible(c, j) && k == c.item[j].key) ==>
                  k in s'.cache.table && s'.cache.table[k] == c.table[k])
            && s'.cache.table.Keys <= c.table.Keys
  {
  }

  /** A new item that somebody removed before it was queued leaves the queue again. */
  lemma SwapLooksAgain(s: State, a: Action)
    requires Enabled(s, a) && a.Advance? && s.pc[a.t].SwapQueued?
    ensures Step(s, a).cache == s.cache
    ensures if Accessible(s.cache, s.pc[a.t].j) then Step(s, a).pc[a.t] == Idle
            else UnqueuesNext(Step(s, a), a.t, s.pc[a.t].j)
  {
    if !Accessible(s.cache, s.pc[a.t].j) {
      UnqueuesLast(Step(s, a), a.t, s.pc[a.t].n, s.pc[a.t].j);
    }
  }

  // ---------- eviction ----------

  /** An operation on an item nobody holds begins by marking it; a direct candidate leaves the
      queue at once, and nothing else changes. */
  lemma MarkingStarts(s: State, a: Action)
    requires Enabled(s, a) && a.Start? && (a.op.Evict? || a.op.MoveItem? || a.op.MoveChild?)
    ensures var c, c' := s.cache, Step(s, a).cache;
            var i := if a.op.MoveChild? then a.op.parent else a.op.i;
            var m := if a.op.Evict? then Exclusive else Moving(a.op.MoveChild?);
            && !IsMarked(c, i) && c'.item == c.item[i := ItemInfo(c.item[i].key, m)]
            && c'.queue == (if a.op.Evict? && a.op.direct then c.queue - {i} else c.queue)
            && c'.table == c.table && c'.handle == c.handle && c'.free == c.free
            && StakeOf(Step(s, a).pc[a.t]) == Owner(i, m, true)
  {
  }

  /** Eviction unbinds the item, takes it off the queue, clears its mark and frees it, in this
      order and one at a time. */
  lemma EvictionUnlinks(s: State, a: Action)
    requires Enabled(s, a) && a.Advance?
    ensures var p, c, s' := s.pc[a.t], s.cache, Step(s, a);
            match p
            case EvMarked(i) =>
              && !Accessible(s'.cache, i) && s'.pc[a.t] == EvUnbound(i)
              && Relinked(c, s'.cache, s'.cache.table, c.queue, c.handle)
              && (forall k :: k in c.table && !(Accessible(c, i) && k == c.item[i].key) ==>
                    k in s'.cache.table && s'.cache.table[k] == c.table[k])
              && s'.cache.table.Keys <= c.table.Keys
            case EvUnbound(i) =>
              Relinked(c, s'.cache, c.table, c.queue - {i}, c.handle) && s'.pc[a.t] == EvUnqueued(i)
            case EvUnqueued(i) =>
              && s'.cache == c.(item := c.item[i := ItemInfo(c.item[i].key, Unmarked)])
              && s'.pc[a.t] == Freeing(i)
            case Freeing(i) => s'.cache == c.(free := c.free + {i}) && s'.pc[a.t] == Idle
            case _ => true
  {
  }

  // ---------- moving for slab release ----------

  /** A move that does not give up queues the copy, gives it the key when the item still has it,
      takes the item off the queue and frees it. A copy that came too late leaves the queue again
      and the item is evicted instead. */
  lemma MoveRelinks(s: State, a: Action)
    requires Enabled(s, a) && a.Advance? && a.c != GiveUp
    ensures var p, c, s' := s.pc[a.t], s.cache, Step(s, a);
            match p
            case MvMarked(i) =>
              var n := a.c.n;
              && Relinked(c, s'.cache, c.table, c.queue + {c.handle[n]}, c.handle)
              && s'.pc[a.t] == MvQueued(i, n, c.handle[n])
            case MvQueued(i, n, j) =>
              if Accessible(c, i) then
                && Accessible(s'.cache, j) && s'.pc[a.t] == MvBound(i, n, j)
                && Relinked(c, s'.cache, c.table[c.item[j].key := j], c.queue, c.handle)
              else s'.cache == c && s'.pc[a.t] == MvFailed(i, n, j)
            case MvBound(i, n, j) =>
              Relinked(c, s'.cache, c.table, c.queue - {i}, c.handle) && s'.pc[a.t] == MvUnqueued(i, n, j)
            case MvUnqueued(i, n, j) =>
              && s'.cache == c.(item := c.item[i := ItemInfo(c.item[i].key, Unmarked)])
              && s'.pc[a.t] == Freeing(i)
            case MvFailed(i, n, j) =>
              Relinked(c, s'.cache, c.table, c.queue - {j}, c.handle) && s'.pc[a.t] == MvGiveUp(i)
            case MvGiveUp(i) =>
              && s'.cache == c.(item := c.item[i := ItemInfo(c.item[i].key, Exclusive)])
              && s'.pc[a.t] == EvMarked(i)
            case ChMarked(i) =>
              && s'.cache == c.(item := c.item[i := ItemInfo(c.item[i].key, Unmarked)])
              && s'.pc[a.t] == Idle
            case _ => true
  {
  }

  /** A move that gives up turns into the eviction of the same item. */
  lemma MoveGivesUp(s: State, a: Action)
    requires Enabled(s, a) && a.Advance? && a.c == GiveUp
    ensures var p, c, s' := s.pc[a.t], s.cache, Step(s, a);
            if p.MvMarked? then s'.cache == c && s'.pc[a.t] == MvGiveUp(p.i)
            else
              && p.ChMarked? && s'.pc[a.t] == EvMarked(p.i)
              && s'.cache == c.(item := c.item[p.i := ItemInfo(c.item[p.i].key, Exclusive)])
  {
  }

  // ---------- handles ----------

  /** A lookup hits exactly the unmarked item its key names; a dropped handle leads to freeing
      exactly when nothing refers to the item any more. */
  lemma HandleSteps(s: State, a: Action)
    requires Enabled(s, a) && !a.Start? && !a.Advance?
    ensures var c, s' := s.cache, Step(s, a);
            match a
            case Allocate(t, i, k, h) =>
              s'.cache == c.(item := c.item[i := ItemInfo(k, Unmarked)], handle := c.handle[h := i])
            case Find(t, k, h) =>
              if k in c.table && c.table[k] in c.item && c.item[c.table[k]].mark == Unmarked then
                s'.cache == c.(handle := c.handle[h := c.table[k]])
              else s'.cache == c
            case Clone(t, source, h) => s'.cache == c.(handle := c.handle[h := c.handle[source]])
            case Drop(t, h) =>
              && s'.cache == c.(handle := c.handle - {h})
              && s'.pc[t] == (if Drained(s'.cache, c.handle[h]) then Freeing(c.handle[h]) else Idle)
            case _ => true
  {
  }

  // ---------- whole operations, in any interleaving ----------

  /** Some later state of the run has the item bound to its key. */
  ghost predicate BoundLater(s: State, acts: seq<Action>, i: Item)
    requires Runs(s, acts)
    decreases |acts|
  {
    acts != [] && var u := Step(s, acts[0]);
                  Accessible(u.cache, i) || BoundLater(u, acts[1..], i)
  }

  /** Some later state of the run has the item off the queue. */
  ghost predicate UnqueuedLater(s: State, acts: seq<Action>, i: Item)
    requires Runs(s, acts)
    decreases |acts|
  {
    acts != [] && var u := Step(s, acts[0]);
                  i !in u.cache.queue || UnqueuedLater(u, acts[1..], i)
  }

  /** At some point of the run no key reaches `i`. */
  ghost predicate LosesLater(s: State, acts: seq<Action>, i: Item)
    requires Runs(s, acts)
    decreases |acts|
  {
    !Accessible(s.cache, i) || (acts != [] && LosesLater(Step(s, acts[0]), acts[1..], i))
  }

  /** The key of `i` is taken at some point of the run. */
  ghost predicate TakenSometime(s: State, acts: seq<Action>, i: Item)
    requires Runs(s, acts)
    decreases |acts|
  {
    || (i in s.cache.item && s.cache.item[i].key in s.cache.table)
    || (acts != [] && TakenSometime(Step(s, acts[0]), acts[1..], i))
  }

  /** The thread has left the point `p` of its program by the end of the run. */
  ghost predicate Leaves(s: State, acts: seq<Action>, t: ThreadId, p: Pc)
    requires Runs(s, acts)
  {
    t in s.pc && s.pc[t] == p && (t in Exec(s, acts).pc ==> Exec(s, acts).pc[t] != p)
  }

  lemma {:induction false} LeavesQueue(s: State, acts: seq<Action>, t: ThreadId, h: HandleId, i: Item)
    requires Runs(s, acts) && Leaves(s, acts, t, ToUnqueue(h, i))
    ensures UnqueuedLater(s, acts, i)
    decreases |acts|
  {
    if acts[0].t == t {
      UnqueuesLast(s, t, h, i);
    } else {
      LeavesQueue(Step(s, acts[0]), acts[1..], t, h, i);
    }
  }

  /** However the threads interleave, insertOrReplace has bound its item by the time it is past
      the table, unless it threw. */
  lemma {:induction false} ReplaceTakesEffect(s: State, acts: seq<Action>, t: ThreadId, h: HandleId, i: Item)
    requires Runs(s, acts) && Leaves(s, acts, t, RepQueued(h, i)) && Advance(t, Throw) !in acts
    ensures BoundLater(s, acts, i)
    decreases |acts|
  {
    var a := acts[0];
    assert a in acts;
    if a.t == t {
      ReplaceBinds(s, a);
    } else {
      ReplaceTakesEffect(Step(s, a), acts[1..], t, h, i);
    }
  }

  /** The unmarked item it found under the key is off the queue before the operation ends. */
  lemma DisplacedLeavesQueue(s: State, acts: seq<Action>, t: ThreadId)
    requires Runs(s, acts) && acts != [] && acts[0].Advance? && acts[0].t == t && acts[0].c != Throw
    requires s.pc[t].RepQueued? && t in Exec(s, acts).pc && Exec(s, acts).pc[t] == Idle
    requires var k := s.cache.item[s.pc[t].i].key; k in s.cache.table && !IsMarked(s.cache, s.cache.table[k])
    ensures UnqueuedLater(Step(s, acts[0]), acts[1..], s.cache.table[s.cache.item[s.pc[t].i].key])
  {
    var k := s.cache.item[s.pc[t].i].key;
    LeavesQueue(Step(s, acts[0]), acts[1..], t, acts[0].c.r, s.cache.table[k]);
  }

  /** insert has bound its item by then, or its key was taken at some point meanwhile. */
  lemma {:induction false} InsertTakesEffect(s: State, acts: seq<Action>, t: ThreadId, h: HandleId, i: Item)
    requires Runs(s, acts) && Leaves(s, acts, t, InsQueued(h, i))
    ensures BoundLater(s, acts, i) || TakenSometime(s, acts, i)
    decreases |acts|
  {
    if acts[0].t == t {
      InsertBinds(s, acts[0]);
    } else {
      InsertTakesEffect(Step(s, acts[0]), acts[1..], t, h, i);
    }
  }

  /** A move has given the key to its copy by then, or the item lost its key at some point meanwhile. */
  lemma {:induction false} MoveTakesEffect(
      s: State, acts: seq<Action>, t: ThreadId, i: Item, n: HandleId, j: Item)
    requires Runs(s, acts) && Leaves(s, acts, t, MvQueued(i, n, j))
    ensures BoundLater(s, acts, j) || LosesLater(s, acts, i)
    decreases |acts|
  {
    if acts[0].t == t {
      MoveRelinks(s, acts[0]);
    } else {
      MoveTakesEffect(Step(s, acts[0]), acts[1..], t, i, n, j);
    }
  }
}
