/** The invariant of the link protocol, and why every step of every thread keeps it. */
module LinkProofs {
  import opened Basics
  import opened LinkProtocol

  // ---------- the invariant ----------

  /** Containers and handles never name freed memory; a handle excludes a mark. */
  ghost predicate WellFormed(s: Cache) {
    && s.free <= s.item.Keys && s.inserted <= s.item.Keys
    && s.queue <= s.inserted && s.queue !! s.free
    && (forall k :: k in s.table ==> s.table[k] in s.inserted && s.table[k] !in s.free && s.item[s.table[k]].key == k)
    && (forall h :: h in s.handle ==> s.handle[h] in s.item && s.handle[h] !in s.free && !IsMarked(s, s.handle[h]))
    && (forall i :: i in s.overtaken ==> i in s.inserted && !Accessible(s, i))
  }

  ghost predicate Names(s: Cache, h: HandleId, i: Item) {
    h in s.handle && s.handle[h] == i
  }

  ghost predicate UsesOk(s: Cache, pc: Pc) {
    match pc
    case InsQueued(h, i) => Names(s, h, i)
    case RepQueued(h, i) => Names(s, h, i)
    case RepWaiting(h, i) => Names(s, h, i)
    case ToUnqueue(h, i) => Names(s, h, i)
    case SwapBound(h, i, n, j) => Names(s, h, i) && Names(s, n, j)
    case SwapHalf(n, j) => Names(s, n, j)
    case SwapFailed(n, j) => Names(s, n, j)
    case SwapQueued(n, j) => Names(s, n, j)
    case MvQueued(_, n, j) => Names(s, n, j)
    case MvBound(_, n, j) => Names(s, n, j)
    case MvUnqueued(_, n, j) => Names(s, n, j)
    case MvFailed(_, n, j) => Names(s, n, j)
    case _ => true
  }

  ghost predicate StakeOk(s: Cache, p: Stake) {
    && (p.own.Some? ==> p.own.value in s.item && p.own.value !in s.free && s.item[p.own.value].mark == p.mark)
    && (p.bind.Some? ==> p.bind.value in s.inserted && !Accessible(s, p.bind.value) && p.bind.value !in s.overtaken)
    && (p.queue.Some? ==> p.queue.value in s.inserted && p.queue.value !in s.queue)
  }

  /** What else holds at each point of each operation. */
  ghost predicate PhaseOk(s: Cache, pc: Pc) {
    match pc
    case MvQueued(i, _, j) => i in s.item && j in s.item && s.item[j].key == s.item[i].key
    case EvUnbound(i) => !Accessible(s, i)
    case EvUnqueued(i) => !Accessible(s, i) && i !in s.queue
    case MvBound(i, _, _) => !Accessible(s, i)
    case MvUnqueued(i, _, _) => !Accessible(s, i) && i !in s.queue
    case ChMarked(i) => i in s.queue && (Accessible(s, i) || i in s.overtaken)
    case Freeing(i) => Drained(s, i)
    case _ => true
  }

  ghost predicate PcOk(s: Cache, pc: Pc) {
    UsesOk(s, pc) && StakeOk(s, StakeOf(pc)) && PhaseOk(s, pc)
  }

  ghost predicate Differ(x: Option<Item>, y: Option<Item>) {
    x == None || x != y
  }

  ghost predicate Apart(p: Stake, q: Stake) {
    Differ(p.own, q.own) && Differ(p.bind, q.bind) && Differ(p.queue, q.queue)
  }

  ghost predicate Threads(s: State) {
    && (forall t :: t in s.pc ==> PcOk(s.cache, s.pc[t]))
    && (forall t, u :: t in s.pc && u in s.pc && t != u ==> Apart(StakeOf(s.pc[t]), StakeOf(s.pc[u])))
  }

  ghost predicate OwnedBySome(s: State, i: Item) {
    exists t :: t in s.pc && StakeOf(s.pc[t]).own == Some(i)
  }

  ghost predicate Reached(s: Cache, i: Item) {
    Held(s, i) || i in s.queue || Accessible(s, i)
  }

  /** Every mark has an owner, and every item not yet freed is held, linked or owned. */
  ghost predicate Accounted(s: State) {
    var c := s.cache;
    && (forall i :: IsMarked(c, i) ==> OwnedBySome(s, i))
    && (forall i :: i in c.item && i !in c.free ==> Reached(c, i) || OwnedBySome(s, i))
  }

  ghost predicate Minds(p: Stake, i: Item) {
    p.care == Some(i) || (p.minds && p.own == Some(i))
  }

  ghost predicate OnDuty(s: State, i: Item) {
    exists t :: t in s.pc && Minds(StakeOf(s.pc[t]), i)
  }

  /** A queued item that no key reaches is still somebody's business, or was overtaken. */
  ghost predicate Covered(s: State) {
    var c := s.cache;
    forall i :: i in c.queue && !Accessible(c, i) ==> i in c.overtaken || OnDuty(s, i)
  }

  ghost predicate Inv(s: State) {
    WellFormed(s.cache) && Threads(s) && Accounted(s) && Covered(s)
  }

  // ---------- what one thread may do without disturbing the others ----------

  ghost predicate KeepsHandles(s: Cache, s': Cache) {
    forall h :: h in s.handle ==> Names(s', h, s.handle[h])
  }

  /** The effect of a step on the items other threads rely on, for a thread with stake `p`. */
  ghost predicate Gentle(s: Cache, s': Cache, p: Stake) {
    && s.item.Keys <= s'.item.Keys
    && (forall i :: Held(s', i) ==> Held(s, i) || Accessible(s, i) || i !in s.item)
    && (forall i :: i in s.item ==>
          && s'.item[i].key == s.item[i].key
          && (s'.item[i].mark == s.item[i].mark || p.own == Some(i) || (!IsMarked(s, i) && !Drained(s, i))))
    && (forall i :: Accessible(s', i) && !Accessible(s, i) ==> p.bind == Some(i) || (i !in s.inserted && Held(s, i)))
    && (forall i :: i in s'.queue && i !in s.queue ==> p.queue == Some(i) || (i !in s.inserted && Held(s, i)))
    && (forall i :: i in s.queue && i !in s'.queue ==> p.own == Some(i) || !IsMarked(s, i))
    && (forall i :: Accessible(s, i) && !Accessible(s', i) ==>
          p.own == Some(i) || s.item[i].mark != Moving(true) || i in s'.overtaken)
    && s.inserted <= s'.inserted && s.free <= s'.free && s.overtaken <= s'.overtaken
    && (forall i :: i in s'.overtaken && i !in s.overtaken ==> Accessible(s, i))
    && (forall i :: i in s'.free && i !in s.free ==> p.own == Some(i))
  }

  /** The step's new stake does not clash with another thread's. */
  ghost predicate Claims(s: Cache, p: Stake, q: Stake) {
    && (q.own.Some? && q.own != p.own ==> !IsMarked(s, q.own.value) && !Drained(s, q.own.value))
    && (q.bind.Some? && q.bind != p.bind ==> q.bind.value !in s.inserted)
    && (q.queue.Some? && q.queue != p.queue ==> q.queue.value !in s.inserted)
  }

  /** Nothing is forgotten: what the thread stops owning is reached or freed. */
  ghost predicate Settles(s: Cache, s': Cache, p: Stake, q: Stake) {
    && (forall i :: i in s'.item && i !in s.item ==> Reached(s', i))
    && (forall i :: IsMarked(s', i) && !IsMarked(s, i) ==> q.own == Some(i))
    && (p.own.Some? && q.own != p.own ==>
          !IsMarked(s', p.own.value) && (p.own.value in s'.free || Reached(s', p.own.value)))
    && (forall i :: Reached(s, i) ==> Reached(s', i) || IsMarked(s, i) || q.own == Some(i))
  }

  /** Marked by a thread that will unlink it. */
  ghost predicate Doomed(s: Cache, i: Item) {
    IsMarked(s, i) && s.item[i].mark != Moving(true)
  }

  /** Every queued item no key reaches is on the thread's duty, or it is another thread's affair. */
  ghost predicate Attends(s: Cache, s': Cache, p: Stake, q: Stake) {
    forall i :: i in s'.queue && !Accessible(s', i) ==>
      || i in s'.overtaken || Minds(q, i)
      || (i in s.queue && !Accessible(s, i) && !Minds(p, i))
      || (i in s.queue && Doomed(s, i) && p.own != Some(i))
  }

  ghost predicate Effect(s: Cache, s': Cache, p: Stake, q: Stake) {
    WellFormed(s') && Gentle(s, s', p) && Settles(s, s', p, q) && Attends(s, s', p, q)
  }

  lemma OtherStakeKept(s: Cache, s': Cache, p: Stake, q: Pc)
    requires Gentle(s, s', p) && StakeOk(s, StakeOf(q)) && PhaseOk(s, q) && Apart(p, StakeOf(q))
    ensures StakeOk(s', StakeOf(q))
  {
  }

  lemma OtherPhaseKept(s: Cache, s': Cache, p: Stake, q: Pc)
    requires Gentle(s, s', p) && WellFormed(s)
    requires StakeOk(s, StakeOf(q)) && PhaseOk(s, q) && Apart(p, StakeOf(q))
    requires (p.bind.Some? ==> Held(s, p.bind.value)) && (p.queue.Some? ==> Held(s, p.queue.value))
    ensures PhaseOk(s', q)
  {
  }

  lemma OtherApart(s: Cache, p: Stake, p': Stake, q: Pc)
    requires Claims(s, p, p') && Apart(p, StakeOf(q)) && StakeOk(s, StakeOf(q)) && PhaseOk(s, q)
    ensures Apart(p', StakeOf(q))
  {
  }

  ghost predicate KeepsUsed(s: State, c': Cache) {
    forall h :: h in s.cache.handle && !Unused(s, h) ==> Names(c', h, s.cache.handle[h])
  }

  lemma OtherUsesKept(s: State, c': Cache, u: ThreadId)
    requires u in s.pc && UsesOk(s.cache, s.pc[u]) && KeepsUsed(s, c')
    ensures UsesOk(c', s.pc[u])
  {
    forall h | h in Uses(s.pc[u]) ensures !Unused(s, h) {
      assert u in s.pc;
    }
  }

  lemma StepThreads(s: State, c': Cache, t: ThreadId, q: Pc)
    requires WellFormed(s.cache) && Threads(s) && t in s.pc && PcOk(c', q)
    requires Claims(s.cache, StakeOf(s.pc[t]), StakeOf(q)) && Gentle(s.cache, c', StakeOf(s.pc[t])) && KeepsUsed(s, c')
    ensures Threads(State(c', s.pc[t := q]))
  {
    hide WellFormed, UsesOk, PhaseOk, StakeOk, Apart, Gentle, Claims, KeepsUsed, StakeOf;
    var p := StakeOf(s.pc[t]);
    StakesHeld(s.cache, s.pc[t]);
    forall u | u in s.pc && u != t ensures PcOk(c', s.pc[u]) && Apart(StakeOf(q), StakeOf(s.pc[u])) {
      OtherUsesKept(s, c', u);
      OtherStakeKept(s.cache, c', p, s.pc[u]);
      OtherPhaseKept(s.cache, c', p, s.pc[u]);
      OtherApart(s.cache, p, StakeOf(q), s.pc[u]);
    }
    assert forall u :: u in s.pc && u != t ==> Apart(StakeOf(s.pc[u]), StakeOf(q)) by { ApartSymmetric(); }
  }

  lemma StakesHeld(c: Cache, pc: Pc)
    requires UsesOk(c, pc)
    ensures var p := StakeOf(pc);
            (p.bind.Some? ==> Held(c, p.bind.value)) && (p.queue.Some? ==> Held(c, p.queue.value))
  {
  }

  lemma ApartSymmetric()
    ensures forall p, q :: Apart(p, q) ==> Apart(q, p)
  {
  }

  lemma StepAccounts(s: State, s': State, t: ThreadId, p: Stake, q: Stake)
    requires Accounted(s) && t in s.pc && t in s'.pc && s'.pc == s.pc[t := s'.pc[t]]
    requires p == StakeOf(s.pc[t]) && q == StakeOf(s'.pc[t])
    requires s.cache.free <= s'.cache.free && Settles(s.cache, s'.cache, p, q)
    ensures Accounted(s')
  {
    hide StakeOf;
    forall i | OwnedBySome(s, i) ensures OwnedBySome(s', i) || p.own == Some(i) {
      var u :| u in s.pc && StakeOf(s.pc[u]).own == Some(i);
      assert u == t || (u in s'.pc && StakeOf(s'.pc[u]).own == Some(i));
    }
  }

  lemma DoomedOnDuty(s: State, i: Item)
    requires Threads(s) && Accounted(s) && i in s.cache.queue && Doomed(s.cache, i)
    ensures exists u :: u in s.pc && StakeOf(s.pc[u]).own == Some(i) && Minds(StakeOf(s.pc[u]), i)
  {
    var u :| u in s.pc && StakeOf(s.pc[u]).own == Some(i);
    assert PcOk(s.cache, s.pc[u]);
  }

  lemma StepCovers(s: State, s': State, t: ThreadId, p: Stake, q: Stake)
    requires Threads(s) && Accounted(s) && Covered(s) && t in s.pc && t in s'.pc && s'.pc == s.pc[t := s'.pc[t]]
    requires p == StakeOf(s.pc[t]) && q == StakeOf(s'.pc[t])
    requires s.cache.overtaken <= s'.cache.overtaken && Attends(s.cache, s'.cache, p, q)
    ensures Covered(s')
  {
    hide StakeOf, Threads, Accounted, Minds, Doomed;
    var c, c' := s.cache, s'.cache;
    forall i | i in c'.queue && !Accessible(c', i) ensures i in c'.overtaken || OnDuty(s', i) {
      if Minds(q, i) {
        assert Minds(StakeOf(s'.pc[t]), i);
      } else if i in c.queue && !Accessible(c, i) && !Minds(p, i) {
        if OnDuty(s, i) {
          var u :| u in s.pc && Minds(StakeOf(s.pc[u]), i);
          assert u in s'.pc && Minds(StakeOf(s'.pc[u]), i);
        }
      } else if i !in c'.overtaken {
        DoomedOnDuty(s, i);
        var u :| u in s.pc && StakeOf(s.pc[u]).own == Some(i) && Minds(StakeOf(s.pc[u]), i);
        assert u in s'.pc && Minds(StakeOf(s'.pc[u]), i);
      }
    }
  }

  /** A step that updates the shared cache to `c'` and the thread's own counter to `q` keeps the invariant. */
  lemma Conclude(s: State, c': Cache, t: ThreadId, q: Pc)
    requires Inv(s) && t in s.pc && PcOk(c', q) && KeepsUsed(s, c')
    requires Claims(s.cache, StakeOf(s.pc[t]), StakeOf(q)) && Effect(s.cache, c', StakeOf(s.pc[t]), StakeOf(q))
    ensures Inv(State(c', s.pc[t := q]))
  {
    var s' := State(c', s.pc[t := q]);
    hide WellFormed, Threads, Accounted, Covered, Settles, Attends, PcOk, Claims, KeepsUsed, StakeOf;
    StepThreads(s, c', t, q);
    StepAccounts(s, s', t, StakeOf(s.pc[t]), StakeOf(q));
    StepCovers(s, s', t, StakeOf(s.pc[t]), StakeOf(q));
  }

  // ---------- each kind of atomic update ----------

  lemma HeldKept(s: Cache, s': Cache)
    requires KeepsHandles(s, s')
    ensures forall i :: Held(s, i) ==> Held(s', i)
  {
    forall i | Held(s, i) ensures Held(s', i) {
      var h :| h in s.handle && s.handle[h] == i;
      assert h in s'.handle;
    }
  }

  lemma HeldSame(s: Cache, s': Cache)
    requires s'.handle == s.handle
    ensures forall i :: Held(s', i) == Held(s, i)
  {
    HeldKept(s, s');
    HeldKept(s', s);
  }

  /** The thread goes on owning what it owned and minding what it minded, except perhaps `x`. */
  ghost predicate Continues(p: Stake, q: Stake, x: Option<Item>) {
    && (p.own.Some? ==> q.own == p.own)
    && forall i :: Minds(p, i) ==> Minds(q, i) || x == Some(i)
  }

  lemma EffectStay(s: Cache, p: Stake, q: Stake)
    requires WellFormed(s) && (p.own.Some? ==> q.own == p.own)
    requires forall i :: Minds(p, i) && i in s.queue && !Accessible(s, i) ==> Minds(q, i)
    ensures Effect(s, s, p, q)
  {
  }

  lemma EffectUnqueue(s: Cache, i: Item, p: Stake, q: Stake)
    requires WellFormed(s) && (Held(s, i) || p.own == Some(i)) && Continues(p, q, Some(i))
    ensures Effect(s, Unqueue(s, i), p, q)
  {
    var s' := Unqueue(s, i);
    HeldSame(s, s');
    assert forall x :: Accessible(s', x) == Accessible(s, x);
  }

  lemma EffectEnqueue(s: Cache, i: Item, p: Stake, q: Stake)
    requires WellFormed(s) && i in s.item && Held(s, i) && (p.queue == Some(i) || i !in s.inserted)
    requires Continues(p, q, None) && Minds(q, i)
    ensures Effect(s, Enqueue(s, i), p, q)
  {
    var s' := Enqueue(s, i);
    HeldSame(s, s');
    assert forall x :: Accessible(s', x) == Accessible(s, x);
  }

  lemma EffectUnbind(s: Cache, i: Item, p: Stake, q: Stake)
    requires WellFormed(s) && (Held(s, i) || p.own == Some(i)) && Continues(p, q, None)
    requires (i in s.queue ==> Minds(q, i))
    ensures Effect(s, Unbind(s, i), p, q)
  {
    var s' := Unbind(s, i);
    HeldSame(s, s');
    assert forall x :: Accessible(s', x) <==> Accessible(s, x) && x != i;
  }

  lemma EffectMark(s: Cache, i: Item, m: Mark, p: Stake, q: Stake)
    requires WellFormed(s) && i in s.item && !Held(s, i)
    requires p.own == Some(i) || (p.own == None && !IsMarked(s, i) && i in s.queue)
    requires q.own == Some(i) || (m == Unmarked && i in s.queue)
    requires forall x :: Minds(p, x) && x in s.queue && !Accessible(s, x) ==> Minds(q, x) || x in s.overtaken
    ensures Effect(s, SetMark(s, i, m), p, q)
  {
    var s' := SetMark(s, i, m);
    HeldSame(s, s');
    assert forall x :: Accessible(s', x) == Accessible(s, x);
  }

  ghost predicate CanBind(s: Cache, i: Item, p: Stake) {
    WellFormed(s) && i in s.item && Held(s, i) && (p.bind == Some(i) || i !in s.inserted) && i !in s.overtaken
  }

  /** The item that loses its key is the thread's own affair, or another thread's, or recorded as overtaken. */
  ghost predicate LosesWell(s: Cache, i: Item, lost: set<Item>, p: Stake, q: Stake)
    requires i in s.item
  {
    var k := s.item[i].key;
    && (forall x :: x in lost ==> k in s.table && x == s.table[k] && x != i)
    && (k in s.table ==>
          var x := s.table[k];
          || (Minds(q, x) && (p.own == Some(x) || Held(s, x)))
          || (Doomed(s, x) && p.own != Some(x))
          || (IsMarked(s, x) && x in lost))
  }

  lemma EffectBind(s: Cache, i: Item, lost: set<Item>, p: Stake, q: Stake)
    requires CanBind(s, i, p) && Continues(p, q, Some(i)) && LosesWell(s, i, lost, p, q)
    ensures Effect(s, BindOver(s, i, lost), p, q)
  {
    var s' := BindOver(s, i, lost);
    HeldSame(s, s');
    assert forall x :: Accessible(s', x) <==> x == i || (Accessible(s, x) && s.item[x].key != s.item[i].key);
  }

  lemma EffectHandle(s: Cache, h: HandleId, i: Item, p: Stake, q: Stake)
    requires WellFormed(s) && h !in s.handle && Continues(p, q, None)
    requires Held(s, i) || (Accessible(s, i) && !IsMarked(s, i))
    ensures Effect(s, NewHandle(s, h, i), p, q)
  {
    var s' := NewHandle(s, h, i);
    HeldKept(s, s');
    assert forall x :: Accessible(s', x) == Accessible(s, x);
    assert forall x :: Held(s', x) ==> Held(s, x) || x == i;
  }

  // ---------- each action ----------

  lemma Stay(s: State, t: ThreadId, q: Pc)
    requires Inv(s) && t in s.pc && PcOk(s.cache, q) && Claims(s.cache, StakeOf(s.pc[t]), StakeOf(q))
    requires StakeOf(s.pc[t]).own.Some? ==> StakeOf(q).own == StakeOf(s.pc[t]).own
    requires forall i :: Minds(StakeOf(s.pc[t]), i) && i in s.cache.queue && !Accessible(s.cache, i) ==>
             Minds(StakeOf(q), i)
    ensures Inv(State(s.cache, s.pc[t := q]))
  {
    EffectStay(s.cache, StakeOf(s.pc[t]), StakeOf(q));
    hide *;
    Conclude(s, s.cache, t, q);
  }

  lemma DoUnqueue(s: State, t: ThreadId, i: Item, q: Pc)
    requires Inv(s) && t in s.pc && PcOk(Unqueue(s.cache, i), q) && Claims(s.cache, StakeOf(s.pc[t]), StakeOf(q))
    requires (Held(s.cache, i) || StakeOf(s.pc[t]).own == Some(i)) && Continues(StakeOf(s.pc[t]), StakeOf(q), Some(i))
    ensures Inv(State(Unqueue(s.cache, i), s.pc[t := q]))
  {
    EffectUnqueue(s.cache, i, StakeOf(s.pc[t]), StakeOf(q));
    assert KeepsUsed(s, Unqueue(s.cache, i));
    hide *;
    Conclude(s, Unqueue(s.cache, i), t, q);
  }

  lemma DoEnqueue(s: State, t: ThreadId, i: Item, q: Pc)
    requires Inv(s) && t in s.pc && PcOk(Enqueue(s.cache, i), q) && Claims(s.cache, StakeOf(s.pc[t]), StakeOf(q))
    requires i in s.cache.item && Held(s.cache, i) && (StakeOf(s.pc[t]).queue == Some(i) || i !in s.cache.inserted)
    requires Continues(StakeOf(s.pc[t]), StakeOf(q), None) && Minds(StakeOf(q), i)
    ensures Inv(State(Enqueue(s.cache, i), s.pc[t := q]))
  {
    EffectEnqueue(s.cache, i, StakeOf(s.pc[t]), StakeOf(q));
    assert KeepsUsed(s, Enqueue(s.cache, i));
    hide *;
    Conclude(s, Enqueue(s.cache, i), t, q);
  }

  lemma DoUnbind(s: State, t: ThreadId, i: Item, q: Pc)
    requires Inv(s) && t in s.pc && PcOk(Unbind(s.cache, i), q) && Claims(s.cache, StakeOf(s.pc[t]), StakeOf(q))
    requires (Held(s.cache, i) || StakeOf(s.pc[t]).own == Some(i)) && Continues(StakeOf(s.pc[t]), StakeOf(q), None)
    requires i in s.cache.queue ==> Minds(StakeOf(q), i)
    ensures Inv(State(Unbind(s.cache, i), s.pc[t := q]))
  {
    EffectUnbind(s.cache, i, StakeOf(s.pc[t]), StakeOf(q));
    assert KeepsUsed(s, Unbind(s.cache, i));
    hide *;
    Conclude(s, Unbind(s.cache, i), t, q);
  }

  lemma DoMark(s: State, t: ThreadId, i: Item, m: Mark, q: Pc)
    requires Inv(s) && t in s.pc && i in s.cache.item && !Held(s.cache, i)
    requires PcOk(SetMark(s.cache, i, m), q) && Claims(s.cache, StakeOf(s.pc[t]), StakeOf(q))
    requires StakeOf(s.pc[t]).own == Some(i)
             || (StakeOf(s.pc[t]).own == None && !IsMarked(s.cache, i) && i in s.cache.queue)
    requires StakeOf(q).own == Some(i) || (m == Unmarked && i in s.cache.queue)
    requires forall x :: Minds(StakeOf(s.pc[t]), x) && x in s.cache.queue && !Accessible(s.cache, x) ==>
             Minds(StakeOf(q), x) || x in s.cache.overtaken
    ensures Inv(State(SetMark(s.cache, i, m), s.pc[t := q]))
  {
    EffectMark(s.cache, i, m, StakeOf(s.pc[t]), StakeOf(q));
    assert KeepsUsed(s, SetMark(s.cache, i, m));
    hide *;
    Conclude(s, SetMark(s.cache, i, m), t, q);
  }

  lemma DoBind(s: State, t: ThreadId, i: Item, lost: set<Item>, q: Pc)
    requires Inv(s) && t in s.pc && CanBind(s.cache, i, StakeOf(s.pc[t]))
    requires PcOk(BindOver(s.cache, i, lost), q) && Claims(s.cache, StakeOf(s.pc[t]), StakeOf(q))
    requires Continues(StakeOf(s.pc[t]), StakeOf(q), Some(i))
    requires LosesWell(s.cache, i, lost, StakeOf(s.pc[t]), StakeOf(q))
    ensures Inv(State(BindOver(s.cache, i, lost), s.pc[t := q]))
  {
    EffectBind(s.cache, i, lost, StakeOf(s.pc[t]), StakeOf(q));
    assert KeepsUsed(s, BindOver(s.cache, i, lost));
    hide *;
    Conclude(s, BindOver(s.cache, i, lost), t, q);
  }

  lemma DoHandle(s: State, t: ThreadId, h: HandleId, i: Item, q: Pc)
    requires Inv(s) && t in s.pc && h !in s.cache.handle
    requires Held(s.cache, i) || (Accessible(s.cache, i) && !IsMarked(s.cache, i))
    requires PcOk(NewHandle(s.cache, h, i), q) && Claims(s.cache, StakeOf(s.pc[t]), StakeOf(q))
    requires Continues(StakeOf(s.pc[t]), StakeOf(q), None)
    ensures Inv(State(NewHandle(s.cache, h, i), s.pc[t := q]))
  {
    EffectHandle(s.cache, h, i, StakeOf(s.pc[t]), StakeOf(q));
    assert KeepsUsed(s, NewHandle(s.cache, h, i));
    hide *;
    Conclude(s, NewHandle(s.cache, h, i), t, q);
  }

  lemma PcFacts(s: State, t: ThreadId)
    requires Inv(s) && t in s.pc
    ensures WellFormed(s.cache) && PcOk(s.cache, s.pc[t])
  {
  }

  lemma InsBinds(s: State, t: ThreadId, h: HandleId, i: Item)
    requires Inv(s) && t in s.pc && s.pc[t] == InsQueued(h, i)
    requires i in s.cache.item && s.cache.item[i].key !in s.cache.table
    ensures Inv(State(BindOver(s.cache, i, {}), s.pc[t := Idle]))
  {
    hide Inv;
    PcFacts(s, t);
    DoBind(s, t, i, {}, Idle);
  }

  lemma InsRefused(s: State, t: ThreadId, h: HandleId, i: Item)
    requires Inv(s) && t in s.pc && s.pc[t] == InsQueued(h, i)
    ensures Inv(State(s.cache, s.pc[t := ToUnqueue(h, i)]))
  {
    hide Inv;
    PcFacts(s, t);
    Stay(s, t, ToUnqueue(h, i));
  }

  lemma RepBinds(s: State, t: ThreadId, h: HandleId, i: Item)
    requires Inv(s) && t in s.pc && s.pc[t] == RepQueued(h, i)
    requires i in s.cache.item
    requires var k := s.cache.item[i].key; k in s.cache.table ==> Doomed(s.cache, s.cache.table[k])
    ensures Inv(State(BindOver(s.cache, i, {}), s.pc[t := Idle]))
  {
    hide Inv;
    PcFacts(s, t);
    DoBind(s, t, i, {}, Idle);
  }

  lemma RepThrows(s: State, t: ThreadId, h: HandleId, i: Item)
    requires Inv(s) && t in s.pc && s.pc[t] == RepQueued(h, i)
    ensures Inv(State(s.cache, s.pc[t := ToUnqueue(h, i)]))
  {
    hide Inv;
    PcFacts(s, t);
    Stay(s, t, ToUnqueue(h, i));
  }

  lemma RepWaits(s: State, t: ThreadId, h: HandleId, i: Item, lost: set<Item>)
    requires Inv(s) && t in s.pc && s.pc[t] == RepQueued(h, i)
    requires i in s.cache.item && s.cache.item[i].key in s.cache.table
    requires var x := s.cache.table[s.cache.item[i].key];
             IsMarked(s.cache, x) && lost == if s.cache.item[x].mark == Moving(true) then {x} else {}
    ensures Inv(State(BindOver(s.cache, i, lost), s.pc[t := RepWaiting(h, i)]))
  {
    hide Inv;
    PcFacts(s, t);
    DoBind(s, t, i, lost, RepWaiting(h, i));
  }

  lemma RepTakesHandle(s: State, t: ThreadId, h: HandleId, i: Item, r: HandleId)
    requires Inv(s) && t in s.pc && s.pc[t] == RepQueued(h, i) && r !in s.cache.handle
    requires i in s.cache.item && s.cache.item[i].key in s.cache.table
    requires !IsMarked(s.cache, s.cache.table[s.cache.item[i].key])
    ensures Inv(State(NewHandle(s.cache, r, s.cache.table[s.cache.item[i].key]), s.pc))
  {
    hide Inv;
    PcFacts(s, t);
    DoHandle(s, t, r, s.cache.table[s.cache.item[i].key], s.pc[t]);
    assert s.pc[t := s.pc[t]] == s.pc;
  }

  lemma RepReplaces(s: State, t: ThreadId, h: HandleId, i: Item, r: HandleId, x: Item)
    requires Inv(s) && t in s.pc && s.pc[t] == RepQueued(h, i)
    requires i in s.cache.item && s.cache.item[i].key in s.cache.table && x == s.cache.table[s.cache.item[i].key]
    requires Names(s.cache, r, x)
    ensures Inv(State(BindOver(s.cache, i, {}), s.pc[t := ToUnqueue(r, x)]))
  {
    hide Inv;
    PcFacts(s, t);
    DoBind(s, t, i, {}, ToUnqueue(r, x));
  }

  lemma RepGivesUp(s: State, t: ThreadId, h: HandleId, i: Item)
    requires Inv(s) && t in s.pc && s.pc[t] == RepWaiting(h, i)
    ensures Inv(State(s.cache, s.pc[t := Idle]))
  {
    hide Inv;
    PcFacts(s, t);
    Stay(s, t, Idle);
  }

  lemma RepWoken(s: State, t: ThreadId, h: HandleId, i: Item, r: HandleId, x: Item)
    requires Inv(s) && t in s.pc && s.pc[t] == RepWaiting(h, i)
    requires r !in s.cache.handle && Held(s.cache, x)
    ensures Inv(State(NewHandle(s.cache, r, x), s.pc[t := ToUnqueue(r, x)]))
  {
    hide Inv;
    PcFacts(s, t);
    DoHandle(s, t, r, x, ToUnqueue(r, x));
  }

  lemma Unqueues(s: State, t: ThreadId, h: HandleId, i: Item)
    requires Inv(s) && t in s.pc && s.pc[t] == ToUnqueue(h, i)
    ensures Inv(State(Unqueue(s.cache, i), s.pc[t := Idle]))
  {
    hide Inv;
    PcFacts(s, t);
    DoUnqueue(s, t, i, Idle);
  }

  lemma SwapFails(s: State, t: ThreadId, h: HandleId, i: Item, n: HandleId, j: Item)
    requires Inv(s) && t in s.pc && s.pc[t] == SwapBound(h, i, n, j)
    requires i !in s.cache.queue
    ensures Inv(State(s.cache, s.pc[t := SwapFailed(n, j)]))
  {
    hide Inv;
    PcFacts(s, t);
    Stay(s, t, SwapFailed(n, j));
  }

  lemma SwapUnqueues(s: State, t: ThreadId, h: HandleId, i: Item, n: HandleId, j: Item)
    requires Inv(s) && t in s.pc && s.pc[t] == SwapBound(h, i, n, j)
    ensures Inv(State(Unqueue(s.cache, i), s.pc[t := SwapHalf(n, j)]))
  {
    hide Inv;
    PcFacts(s, t);
    DoUnqueue(s, t, i, SwapHalf(n, j));
  }

  lemma SwapEnqueues(s: State, t: ThreadId, n: HandleId, j: Item)
    requires Inv(s) && t in s.pc && s.pc[t] == SwapHalf(n, j)
    ensures Inv(State(Enqueue(s.cache, j), s.pc[t := SwapQueued(n, j)]))
  {
    hide Inv;
    PcFacts(s, t);
    DoEnqueue(s, t, j, SwapQueued(n, j));
  }

  lemma SwapUnbinds(s: State, t: ThreadId, n: HandleId, j: Item)
    requires Inv(s) && t in s.pc && s.pc[t] == SwapFailed(n, j)
    ensures Inv(State(Unbind(s.cache, j), s.pc[t := Idle]))
  {
    hide Inv;
    PcFacts(s, t);
    DoUnbind(s, t, j, Idle);
  }

  lemma SwapChecks(s: State, t: ThreadId, n: HandleId, j: Item)
    requires Inv(s) && t in s.pc && s.pc[t] == SwapQueued(n, j)
    ensures Inv(State(s.cache, s.pc[t := if Accessible(s.cache, j) then Idle else ToUnqueue(n, j)]))
  {
    hide Inv;
    PcFacts(s, t);
    Stay(s, t, if Accessible(s.cache, j) then Idle else ToUnqueue(n, j));
  }

  lemma EvUnbinds(s: State, t: ThreadId, i: Item)
    requires Inv(s) && t in s.pc && s.pc[t] == EvMarked(i)
    ensures Inv(State(Unbind(s.cache, i), s.pc[t := EvUnbound(i)]))
  {
    hide Inv;
    PcFacts(s, t);
    DoUnbind(s, t, i, EvUnbound(i));
  }

  lemma EvUnqueues(s: State, t: ThreadId, i: Item)
    requires Inv(s) && t in s.pc && s.pc[t] == EvUnbound(i)
    ensures Inv(State(Unqueue(s.cache, i), s.pc[t := EvUnqueued(i)]))
  {
    hide Inv;
    PcFacts(s, t);
    DoUnqueue(s, t, i, EvUnqueued(i));
  }

  lemma EvUnmarks(s: State, t: ThreadId, i: Item)
    requires Inv(s) && t in s.pc && s.pc[t] == EvUnqueued(i)
    requires i in s.cache.item
    ensures Inv(State(SetMark(s.cache, i, Unmarked), s.pc[t := Freeing(i)]))
  {
    hide Inv;
    PcFacts(s, t);
    DoMark(s, t, i, Unmarked, Freeing(i));
  }

  lemma MvQueues(s: State, t: ThreadId, i: Item, n: HandleId)
    requires Inv(s) && t in s.pc && s.pc[t] == MvMarked(i)
    requires Insertable(s.cache, n) && i in s.cache.item && s.cache.item[s.cache.handle[n]].key == s.cache.item[i].key
    ensures Inv(State(Enqueue(s.cache, s.cache.handle[n]), s.pc[t := MvQueued(i, n, s.cache.handle[n])]))
  {
    hide Inv;
    PcFacts(s, t);
    DoEnqueue(s, t, s.cache.handle[n], MvQueued(i, n, s.cache.handle[n]));
  }

  lemma MvGivesUp(s: State, t: ThreadId, i: Item)
    requires Inv(s) && t in s.pc && s.pc[t] == MvMarked(i)
    ensures Inv(State(s.cache, s.pc[t := MvGiveUp(i)]))
  {
    hide Inv;
    PcFacts(s, t);
    Stay(s, t, MvGiveUp(i));
  }

  lemma MvBinds(s: State, t: ThreadId, i: Item, n: HandleId, j: Item)
    requires Inv(s) && t in s.pc && s.pc[t] == MvQueued(i, n, j)
    requires Accessible(s.cache, i) && j in s.cache.item
    ensures Inv(State(BindOver(s.cache, j, {}), s.pc[t := MvBound(i, n, j)]))
  {
    hide Inv;
    PcFacts(s, t);
    DoBind(s, t, j, {}, MvBound(i, n, j));
  }

  lemma MvFails(s: State, t: ThreadId, i: Item, n: HandleId, j: Item)
    requires Inv(s) && t in s.pc && s.pc[t] == MvQueued(i, n, j)
    ensures Inv(State(s.cache, s.pc[t := MvFailed(i, n, j)]))
  {
    hide Inv;
    PcFacts(s, t);
    Stay(s, t, MvFailed(i, n, j));
  }

  lemma MvUnqueues(s: State, t: ThreadId, i: Item, n: HandleId, j: Item)
    requires Inv(s) && t in s.pc && s.pc[t] == MvBound(i, n, j)
    ensures Inv(State(Unqueue(s.cache, i), s.pc[t := MvUnqueued(i, n, j)]))
  {
    hide Inv;
    PcFacts(s, t);
    DoUnqueue(s, t, i, MvUnqueued(i, n, j));
  }

  lemma MvUnmarks(s: State, t: ThreadId, i: Item, n: HandleId, j: Item)
    requires Inv(s) && t in s.pc && s.pc[t] == MvUnqueued(i, n, j)
    requires i in s.cache.item
    ensures Inv(State(SetMark(s.cache, i, Unmarked), s.pc[t := Freeing(i)]))
  {
    hide Inv;
    PcFacts(s, t);
    DoMark(s, t, i, Unmarked, Freeing(i));
  }

  lemma MvUnqueuesCopy(s: State, t: ThreadId, i: Item, n: HandleId, j: Item)
    requires Inv(s) && t in s.pc && s.pc[t] == MvFailed(i, n, j)
    ensures Inv(State(Unqueue(s.cache, j), s.pc[t := MvGiveUp(i)]))
  {
    hide Inv;
    PcFacts(s, t);
    DoUnqueue(s, t, j, MvGiveUp(i));
  }

  lemma MvEvicts(s: State, t: ThreadId, i: Item)
    requires Inv(s) && t in s.pc && s.pc[t] == MvGiveUp(i)
    requires i in s.cache.item
    ensures Inv(State(SetMark(s.cache, i, Exclusive), s.pc[t := EvMarked(i)]))
  {
    hide Inv;
    PcFacts(s, t);
    DoMark(s, t, i, Exclusive, EvMarked(i));
  }

  lemma ChEvicts(s: State, t: ThreadId, i: Item)
    requires Inv(s) && t in s.pc && s.pc[t] == ChMarked(i)
    requires i in s.cache.item
    ensures Inv(State(SetMark(s.cache, i, Exclusive), s.pc[t := EvMarked(i)]))
  {
    hide Inv;
    PcFacts(s, t);
    DoMark(s, t, i, Exclusive, EvMarked(i));
  }

  lemma ChUnmarks(s: State, t: ThreadId, i: Item)
    requires Inv(s) && t in s.pc && s.pc[t] == ChMarked(i)
    requires i in s.cache.item
    ensures Inv(State(SetMark(s.cache, i, Unmarked), s.pc[t := Idle]))
  {
    hide Inv;
    PcFacts(s, t);
    DoMark(s, t, i, Unmarked, Idle);
  }

  lemma EffectFree(c: Cache, i: Item)
    requires WellFormed(c) && i in c.item && i !in c.free && Drained(c, i)
    ensures Effect(c, c.(free := c.free + {i}), Owner(i, Unmarked, false), NOTHING)
  {
    var c' := c.(free := c.free + {i});
    HeldSame(c, c');
    assert forall x :: Accessible(c', x) == Accessible(c, x);
  }

  lemma Frees(s: State, t: ThreadId, i: Item)
    requires Inv(s) && t in s.pc && s.pc[t] == Freeing(i)
    ensures Inv(State(s.cache.(free := s.cache.free + {i}), s.pc[t := Idle]))
  {
    hide Inv, Effect, WellFormed, Drained;
    PcFacts(s, t);
    EffectFree(s.cache, i);
    Conclude(s, s.cache.(free := s.cache.free + {i}), t, Idle);
  }

  lemma ReplaceAdvances(s: State, t: ThreadId, ch: Choice)
    requires Inv(s) && Enabled(s, Advance(t, ch)) && s.pc[t].RepQueued?
    ensures Inv(Step(s, Advance(t, ch)))
  {
    var c := s.cache;
    var RepQueued(h, i) := s.pc[t];
    hide Inv;
    var k := c.item[i].key;
    if k !in c.table {
      RepBinds(s, t, h, i);
    } else if ch == Throw {
      RepThrows(s, t, h, i);
    } else {
      var x := c.table[k];
      match c.item[x].mark
      case Exclusive => RepBinds(s, t, h, i);
      case Moving(forChild) => RepWaits(s, t, h, i, if forChild then {x} else {});
      case Unmarked =>
        // taking the handle and then binding are two safe steps
        RepTakesHandle(s, t, h, i, ch.r);
        RepReplaces(State(NewHandle(c, ch.r, x), s.pc), t, h, i, ch.r, x);
    }
  }

  lemma SwapAdvances(s: State, t: ThreadId, ch: Choice)
    requires Inv(s) && Enabled(s, Advance(t, ch)) && s.pc[t].SwapBound?
    ensures Inv(Step(s, Advance(t, ch)))
  {
    hide Inv, WellFormed;
    var c := s.cache;
    var SwapBound(h, i, n, j) := s.pc[t];
    PcFacts(s, t);
    if i !in c.queue {
      SwapFails(s, t, h, i, n, j);
    } else {
      SwapUnqueues(s, t, h, i, n, j);
      if ch == Plain {
        var s1 := State(Unqueue(c, i), s.pc[t := SwapHalf(n, j)]);
        SwapEnqueues(s1, t, n, j);
        assert s1.pc[t := SwapQueued(n, j)] == s.pc[t := SwapQueued(n, j)];
      }
    }
  }

  lemma AdvanceKeeps(s: State, t: ThreadId, ch: Choice)
    requires Inv(s) && Enabled(s, Advance(t, ch))
    ensures Inv(Step(s, Advance(t, ch)))
  {
    var c := s.cache;
    hide Inv, WellFormed;
    PcFacts(s, t);
    match s.pc[t]
    case InsQueued(h, i) => if c.item[i].key in c.table { InsRefused(s, t, h, i); } else { InsBinds(s, t, h, i); }
    case RepQueued(h, i) => ReplaceAdvances(s, t, ch);
    case RepWaiting(h, i) =>
      if ch == Plain { RepGivesUp(s, t, h, i); } else { RepWoken(s, t, h, i, ch.r, c.handle[ch.source]); }
    case ToUnqueue(h, i) => Unqueues(s, t, h, i);
    case SwapBound(h, i, n, j) => SwapAdvances(s, t, ch);
    case SwapHalf(n, j) => SwapEnqueues(s, t, n, j);
    case SwapFailed(n, j) => SwapUnbinds(s, t, n, j);
    case SwapQueued(n, j) => SwapChecks(s, t, n, j);
    case EvMarked(i) => EvUnbinds(s, t, i);
    case EvUnbound(i) => EvUnqueues(s, t, i);
    case EvUnqueued(i) => EvUnmarks(s, t, i);
    case MvMarked(i) => if ch == GiveUp { MvGivesUp(s, t, i); } else { MvQueues(s, t, i, ch.n); }
    case MvQueued(i, n, j) => if Accessible(c, i) { MvBinds(s, t, i, n, j); } else { MvFails(s, t, i, n, j); }
    case MvBound(i, n, j) => MvUnqueues(s, t, i, n, j);
    case MvUnqueued(i, n, j) => MvUnmarks(s, t, i, n, j);
    case MvFailed(i, n, j) => MvUnqueuesCopy(s, t, i, n, j);
    case MvGiveUp(i) => MvEvicts(s, t, i);
    case ChMarked(i) => if ch == GiveUp { ChEvicts(s, t, i); } else { ChUnmarks(s, t, i); }
    case Freeing(i) => Frees(s, t, i);
  }

  lemma UnheldCovered(s: State, i: Item)
    requires Inv(s) && CanMark(s.cache, i)
    ensures Accessible(s.cache, i) || i in s.cache.overtaken
  {
    forall t | t in s.pc ensures !Minds(StakeOf(s.pc[t]), i) {
      assert PcOk(s.cache, s.pc[t]);
    }
  }

  lemma StartKeeps(s: State, t: ThreadId, op: Op)
    requires Inv(s) && Enabled(s, Start(t, op)) && !op.Evict?
    ensures Inv(Step(s, Start(t, op)))
  {
    hide Inv;
    var c := s.cache;
    PcFacts(s, t);
    if op.MoveChild? { UnheldCovered(s, op.parent); }
    match op
    case Insert(h) => DoEnqueue(s, t, c.handle[h], InsQueued(h, c.handle[h]));
    case InsertOrReplace(h) => DoEnqueue(s, t, c.handle[h], RepQueued(h, c.handle[h]));
    case Remove(h) => DoUnbind(s, t, c.handle[h], ToUnqueue(h, c.handle[h]));
    case ReplaceIfAccessible(h, n) =>
      if Accessible(c, c.handle[h]) {
        DoBind(s, t, c.handle[n], {}, SwapBound(h, c.handle[h], n, c.handle[n]));
      } else {
        Stay(s, t, Idle);
      }
    case MoveItem(i) => DoMark(s, t, i, Moving(false), MvMarked(i));
    case MoveChild(i) => DoMark(s, t, i, Moving(true), ChMarked(i));
  }

  lemma EvictKeeps(s: State, t: ThreadId, i: Item, direct: bool)
    requires Inv(s) && Enabled(s, Start(t, Evict(i, direct)))
    ensures Inv(Step(s, Start(t, Evict(i, direct))))
  {
    hide Inv;
    PcFacts(s, t);
    DoMark(s, t, i, Exclusive, EvMarked(i));
    if direct {
      var s1 := State(SetMark(s.cache, i, Exclusive), s.pc[t := EvMarked(i)]);
      PcFacts(s1, t);
      DoUnqueue(s1, t, i, EvMarked(i));
      assert s1.pc[t := EvMarked(i)] == s1.pc;
    }
  }

  function Allocated(c: Cache, i: Item, k: Key, h: HandleId): Cache {
    NewHandle(c.(item := c.item[i := ItemInfo(k, Unmarked)]), h, i)
  }

  lemma EffectAllocate(c: Cache, i: Item, k: Key, h: HandleId)
    requires WellFormed(c) && i !in c.item && h !in c.handle
    ensures Effect(c, Allocated(c, i, k, h), NOTHING, NOTHING)
  {
    var c' := Allocated(c, i, k, h);
    HeldKept(c, c');
    assert h in c'.handle;
    assert forall x :: Accessible(c', x) == Accessible(c, x);
    assert forall x :: Held(c', x) ==> Held(c, x) || x == i;
  }

  lemma AllocateKeeps(s: State, t: ThreadId, i: Item, k: Key, h: HandleId)
    requires Inv(s) && Enabled(s, Allocate(t, i, k, h))
    ensures Inv(Step(s, Allocate(t, i, k, h)))
  {
    hide Inv, Effect, WellFormed;
    PcFacts(s, t);
    EffectAllocate(s.cache, i, k, h);
    Conclude(s, Allocated(s.cache, i, k, h), t, Idle);
  }

  lemma EffectDrop(c: Cache, h: HandleId)
    requires WellFormed(c) && h in c.handle
    ensures Effect(c, DropHandle(c, h).0, NOTHING, StakeOf(DropHandle(c, h).1))
    ensures PcOk(DropHandle(c, h).0, DropHandle(c, h).1)
    ensures Claims(c, NOTHING, StakeOf(DropHandle(c, h).1))
  {
    var i := c.handle[h];
    var (c', q) := DropHandle(c, h);
    HeldKept(c', c);
    assert forall x :: Accessible(c', x) == Accessible(c, x);
    forall x | Held(c, x) ensures Held(c', x) || x == i {
      var g :| g in c.handle && c.handle[g] == x;
      assert x == i || g in c'.handle;
    }
  }

  lemma DropKeeps(s: State, t: ThreadId, h: HandleId)
    requires Inv(s) && Enabled(s, Drop(t, h))
    ensures Inv(Step(s, Drop(t, h)))
  {
    hide Inv, Effect, WellFormed, PcOk, Claims, Drained;
    PcFacts(s, t);
    EffectDrop(s.cache, h);
    var (c', q) := DropHandle(s.cache, h);
    assert KeepsUsed(s, c');
    Conclude(s, c', t, q);
  }

  /** Every step of every thread keeps the invariant. */
  lemma StepKeeps(s: State, a: Action)
    requires Inv(s) && Enabled(s, a)
    ensures Inv(Step(s, a))
  {
    var c := s.cache;
    hide Inv;
    PcFacts(s, a.t);
    match a
    case Allocate(t, i, k, h) => AllocateKeeps(s, t, i, k, h);
    case Find(t, k, h) =>
      if k in c.table && c.table[k] in c.item && !IsMarked(c, c.table[k]) {
        DoHandle(s, t, h, c.table[k], Idle);
      } else {
        Stay(s, t, Idle);
      }
    case Clone(t, source, h) => DoHandle(s, t, h, c.handle[source], Idle);
    case Drop(t, h) => DropKeeps(s, t, h);
    case Start(t, op) => if op.Evict? { EvictKeeps(s, t, op.i, op.direct); } else { StartKeeps(s, t, op); }
    case Advance(t, ch) => AdvanceKeeps(s, t, ch);
  }

  lemma {:induction false} RunKeeps(s: State, acts: seq<Action>)
    requires Inv(s) && Runs(s, acts)
    ensures Inv(Exec(s, acts))
    decreases |acts|
  {
    if acts != [] {
      StepKeeps(s, acts[0]);
      hide Inv;
      RunKeeps(Step(s, acts[0]), acts[1..]);
    }
  }
}
