/** What every interleaving of the link protocol guarantees, and the one interleaving that
    leaves an item queued without being reachable. */
module LinkTheorems {
  import opened Basics
  import opened LinkProtocol
  import opened LinkProofs

  lemma InitInv(threads: set<ThreadId>)
    ensures Inv(Init(threads))
  {
  }

  lemma Reachable(threads: set<ThreadId>, acts: seq<Action>)
    requires Runs(Init(threads), acts)
    ensures Inv(Exec(Init(threads), acts))
  {
    InitInv(threads);
    RunKeeps(Init(threads), acts);
  }

  /** When all threads are done, the queued items no key reaches are exactly the overtaken ones. */
  lemma NoOrphan(threads: set<ThreadId>, acts: seq<Action>)
    requires Runs(Init(threads), acts) && Quiet(Exec(Init(threads), acts))
    ensures var c := Exec(Init(threads), acts).cache;
            forall i :: i in c.queue ==> (Accessible(c, i) <==> i !in c.overtaken)
  {
    Reachable(threads, acts);
    var s := Exec(Init(threads), acts);
    forall i | i in s.cache.queue && !Accessible(s.cache, i) ensures i in s.cache.overtaken {
      assert !OnDuty(s, i);
    }
  }

  /** insertOrReplace unbinds a parent while it is marked for the move of one of its children. */
  predicate Overtakes(s: State, a: Action)
    requires Enabled(s, a)
  {
    && a.Advance? && s.pc[a.t].RepQueued? && a.c != Throw
    && var k := s.cache.item[s.pc[a.t].i].key;
       k in s.cache.table && s.cache.item[s.cache.table[k]].mark == Moving(true)
  }

  predicate NeverOvertakes(s: State, acts: seq<Action>)
    requires Runs(s, acts)
    decreases |acts|
  {
    acts == [] || (!Overtakes(s, acts[0]) && NeverOvertakes(Step(s, acts[0]), acts[1..]))
  }

  /** Only such a replacement adds to the overtaken items. */
  lemma OvertakenGrows(s: State, a: Action)
    requires Enabled(s, a)
    ensures Step(s, a).cache.overtaken ==
            if Overtakes(s, a) then s.cache.overtaken + {s.cache.table[s.cache.item[s.pc[a.t].i].key]}
            else s.cache.overtaken
  {
    hide Drained, Held, Insertable, CanMark, Accessible, StakeOf, Unused;
  }

  lemma {:induction false} NothingOvertaken(s: State, acts: seq<Action>)
    requires Runs(s, acts) && NeverOvertakes(s, acts) && s.cache.overtaken == {}
    ensures Exec(s, acts).cache.overtaken == {}
    decreases |acts|
  {
    if acts != [] {
      OvertakenGrows(s, acts[0]);
      NothingOvertaken(Step(s, acts[0]), acts[1..]);
    }
  }

  /** Without such a replacement every interleaving ends with every queued item reachable by key. */
  lemma NoOrphanWithoutOvertaking(threads: set<ThreadId>, acts: seq<Action>)
    requires Runs(Init(threads), acts) && Quiet(Exec(Init(threads), acts))
    requires NeverOvertakes(Init(threads), acts)
    ensures var c := Exec(Init(threads), acts).cache;
            forall i :: i in c.queue ==> Accessible(c, i)
  {
    NoOrphan(threads, acts);
    NothingOvertaken(Init(threads), acts);
  }

  /** In every reachable state freed memory is neither held nor linked, at most one thread is
      returning an item to the allocator, and it does so once, after the item is drained. */
  lemma FreedOnce(threads: set<ThreadId>, acts: seq<Action>)
    requires Runs(Init(threads), acts)
    ensures var s := Exec(Init(threads), acts);
            && (forall i :: i in s.cache.free ==>
                  !Held(s.cache, i) && i !in s.cache.queue && !Accessible(s.cache, i))
            && (forall t, u :: t in s.pc && u in s.pc && s.pc[t].Freeing? && s.pc[u].Freeing? && t != u ==>
                  s.pc[t].i != s.pc[u].i)
            && (forall t :: t in s.pc && s.pc[t].Freeing? ==>
                  s.pc[t].i !in s.cache.free && Drained(s.cache, s.pc[t].i))
  {
    Reachable(threads, acts);
    var s := Exec(Init(threads), acts);
    forall t | t in s.pc && s.pc[t].Freeing?
      ensures s.pc[t].i !in s.cache.free && Drained(s.cache, s.pc[t].i)
    {
      assert PcOk(s.cache, s.pc[t]);
    }
    forall t, u | t in s.pc && u in s.pc && s.pc[t].Freeing? && s.pc[u].Freeing? && t != u
      ensures s.pc[t].i != s.pc[u].i
    {
      assert Apart(StakeOf(s.pc[t]), StakeOf(s.pc[u]));
    }
  }

  /** When all threads are done, every item is exactly one of freed, or still held or linked:
      no slot leaks, and no mark is left behind. */
  lemma SlotsConserved(threads: set<ThreadId>, acts: seq<Action>)
    requires Runs(Init(threads), acts) && Quiet(Exec(Init(threads), acts))
    ensures var c := Exec(Init(threads), acts).cache;
            forall i :: i in c.item ==> (i in c.free <==> Drained(c, i)) && !IsMarked(c, i)
  {
    Reachable(threads, acts);
    FreedOnce(threads, acts);
    var s := Exec(Init(threads), acts);
    forall i | i in s.cache.item ensures !OwnedBySome(s, i) {
    }
  }

  // ---------- progress ----------

  /** No thread is ever stuck inside an operation: some outcome of its next step is open to it. */
  lemma NeverStuck(threads: set<ThreadId>, acts: seq<Action>, t: ThreadId) returns (c: Choice)
    requires Runs(Init(threads), acts)
    requires t in Exec(Init(threads), acts).pc && Exec(Init(threads), acts).pc[t] != Idle
    ensures Enabled(Exec(Init(threads), acts), Advance(t, c))
  {
    Reachable(threads, acts);
    var s := Exec(Init(threads), acts);
    hide Runs, Exec;
    assert PcOk(s.cache, s.pc[t]);
    c := Plain;
    if s.pc[t].MvMarked? {
      c := GiveUp;
    } else if s.pc[t].RepQueued? {
      var k := s.cache.item[s.pc[t].i].key;
      if k in s.cache.table && !IsMarked(s.cache, s.cache.table[k]) {
        var r := Spare(s.cache.handle.Keys);
        c := Fresh(r);
      }
    }
  }

  /** How many steps an operation can still take. */
  function StepsLeft(p: Pc): nat {
    match p
    case Idle => 0
    case InsQueued(_, _) => 2
    case RepQueued(_, _) => 3
    case RepWaiting(_, _) => 2
    case ToUnqueue(_, _) => 1
    case SwapBound(_, _, _, _) => 4
    case SwapHalf(_, _) => 3
    case SwapFailed(_, _) => 1
    case SwapQueued(_, _) => 2
    case EvMarked(_) => 4
    case EvUnbound(_) => 3
    case EvUnqueued(_) => 2
    case MvMarked(_) => 8
    case MvQueued(_, _, _) => 7
    case MvBound(_, _, _) => 3
    case MvUnqueued(_, _, _) => 2
    case MvFailed(_, _, _) => 6
    case MvGiveUp(_) => 5
    case ChMarked(_) => 5
    case Freeing(_) => 1
  }

  /** The thread's own steps in a run. */
  function OwnSteps(acts: seq<Action>, t: ThreadId): nat {
    if acts == [] then 0 else (if acts[0].t == t then 1 else 0) + OwnSteps(acts[1..], t)
  }

  lemma StepShortens(s: State, a: Action)
    requires Enabled(s, a) && a.Advance?
    ensures StepsLeft(Step(s, a).pc[a.t]) < StepsLeft(s.pc[a.t])
  {
    hide Drained, Held, Insertable, CanMark;
  }

  /** Whatever the other threads do, an operation is over after so many steps of its own thread. */
  lemma {:induction false} OperationsEnd(s: State, acts: seq<Action>, t: ThreadId)
    requires Runs(s, acts) && t in s.pc && (forall a :: a in acts && a.t == t ==> a.Advance?)
    ensures var s' := Exec(s, acts); t in s'.pc && OwnSteps(acts, t) + StepsLeft(s'.pc[t]) <= StepsLeft(s.pc[t])
    decreases |acts|
  {
    if acts != [] {
      var a := acts[0];
      assert a in acts;
      if a.t == t {
        StepShortens(s, a);
      }
      hide Enabled, Effects, StepsLeft;
      OperationsEnd(Step(s, a), acts[1..], t);
    }
  }

  // ---------- the interleaving that leaves an orphan ----------

  lemma {:induction false} Extend(s: State, acts: seq<Action>, a: Action)
    requires Runs(s, acts) && Enabled(Exec(s, acts), a)
    ensures Runs(s, acts + [a]) && Exec(s, acts + [a]) == Step(Exec(s, acts), a)
    decreases |acts|
  {
    if acts == [] {
      assert [a][1..] == [];
    } else {
      Extend(Step(s, acts[0]), acts[1..], a);
      assert (acts + [a])[1..] == acts[1..] + [a];
    }
  }

  const PLAIN := ItemInfo("k", Unmarked)

  /** Item 1 is inserted by thread 0, which lets go of it. */
  const SETTLED := State(Cache(map[1 := PLAIN], {}, map["k" := 1], {1}, map[], {1}, {}), map[0 := Idle, 1 := Idle])

  /** Thread 0 has marked item 1, a parent, to move one of its children; thread 1 is about to
      replace it with item 2. */
  const CROSSING := State(
    Cache(map[1 := ItemInfo("k", Moving(true)), 2 := PLAIN], {}, map["k" := 1], {1, 2}, map[20 := 2], {1, 2}, {}),
    map[0 := ChMarked(1), 1 := RepQueued(20, 2)])

  /** Thread 1 has bound item 2 and waits for item 1 to be moved. */
  const OVERTAKING := State(
    Cache(map[1 := ItemInfo("k", Moving(true)), 2 := PLAIN], {}, map["k" := 2], {1, 2}, map[20 := 2], {1, 2}, {1}),
    map[0 := ChMarked(1), 1 := RepWaiting(20, 2)])

  /** Thread 0 has unmarked item 1. */
  const WAITING := State(
    Cache(map[1 := PLAIN, 2 := PLAIN], {}, map["k" := 2], {1, 2}, map[20 := 2], {1, 2}, {1}),
    map[0 := Idle, 1 := RepWaiting(20, 2)])

  /** Thread 0 wakes thread 1 with what it finds under the key, which is item 2. */
  const ORPHANED := State(
    Cache(map[1 := PLAIN, 2 := PLAIN], {}, map["k" := 2], {1}, map[20 := 2, 21 := 2, 22 := 2], {1, 2}, {1}),
    map[0 := Idle, 1 := Idle])

  lemma Inserts(acts: seq<Action>) returns (acts': seq<Action>)
    requires Runs(Init({0, 1}), acts) && Exec(Init({0, 1}), acts) == Init({0, 1})
    ensures Runs(Init({0, 1}), acts') && Exec(Init({0, 1}), acts') == SETTLED
  {
    var a, b, c, d := Allocate(0, 1, "k", 10), Start(0, Insert(10)), Advance(0, Plain), Drop(0, 10);
    var s0 := Init({0, 1});
    hide Runs, Exec;
    Extend(s0, acts, a);
    Extend(s0, acts + [a], b);
    Extend(s0, acts + [a] + [b], c);
    acts' := acts + [a] + [b] + [c];
    assert Exec(s0, acts').cache == SETTLED.cache.(handle := map[10 := 1]);
    Extend(s0, acts', d);
    acts' := acts' + [d];
    assert Exec(s0, acts').cache == SETTLED.cache;
    assert Exec(s0, acts').pc == SETTLED.pc;
  }

  lemma Crosses(acts: seq<Action>) returns (acts': seq<Action>)
    requires Runs(Init({0, 1}), acts) && Exec(Init({0, 1}), acts) == SETTLED
    ensures Runs(Init({0, 1}), acts') && Exec(Init({0, 1}), acts') == CROSSING
  {
    var a, b, c := Start(0, MoveChild(1)), Allocate(1, 2, "k", 20), Start(1, InsertOrReplace(20));
    var s0 := Init({0, 1});
    hide Runs, Exec;
    Extend(s0, acts, a);
    Extend(s0, acts + [a], b);
    Extend(s0, acts + [a] + [b], c);
    acts' := acts + [a] + [b] + [c];
    assert Exec(s0, acts').cache == CROSSING.cache;
    assert Exec(s0, acts').pc == CROSSING.pc;
  }

  lemma Overtaken(acts: seq<Action>) returns (acts': seq<Action>)
    requires Runs(Init({0, 1}), acts) && Exec(Init({0, 1}), acts) == CROSSING
    ensures Runs(Init({0, 1}), acts') && Exec(Init({0, 1}), acts') == OVERTAKING
  {
    var a := Advance(1, Plain);
    hide Runs, Exec;
    Extend(Init({0, 1}), acts, a);
    acts' := acts + [a];
    assert OVERTAKING.cache == BindOver(CROSSING.cache, 2, {1});
    assert OVERTAKING.pc == CROSSING.pc[1 := RepWaiting(20, 2)];
  }

  lemma Unmarks(acts: seq<Action>) returns (acts': seq<Action>)
    requires Runs(Init({0, 1}), acts) && Exec(Init({0, 1}), acts) == OVERTAKING
    ensures Runs(Init({0, 1}), acts') && Exec(Init({0, 1}), acts') == WAITING
  {
    var a := Advance(0, Plain);
    hide Runs, Exec;
    Extend(Init({0, 1}), acts, a);
    acts' := acts + [a];
    assert WAITING.cache == SetMark(OVERTAKING.cache, 1, Unmarked);
    assert WAITING.pc == OVERTAKING.pc[0 := Idle];
  }

  lemma Wakes(acts: seq<Action>) returns (acts': seq<Action>)
    requires Runs(Init({0, 1}), acts) && Exec(Init({0, 1}), acts) == WAITING
    ensures Runs(Init({0, 1}), acts') && Exec(Init({0, 1}), acts') == ORPHANED
  {
    var a, b, c := Find(0, "k", 21), Advance(1, Woken(21, 22)), Advance(1, Plain);
    var s0 := Init({0, 1});
    hide Runs, Exec;
    Extend(s0, acts, a);
    Extend(s0, acts + [a], b);
    Extend(s0, acts + [a] + [b], c);
    acts' := acts + [a] + [b] + [c];
    assert Exec(s0, acts').cache == ORPHANED.cache;
    assert Exec(s0, acts').pc == ORPHANED.pc;
  }

  /** Two threads, one key: thread 1 takes item 2 for the one it replaced and unqueues it. Item 1
      stays queued and unreachable; item 2 is reachable and in no queue. */
  lemma OrphanExists() returns (acts: seq<Action>)
    ensures Runs(Init({0, 1}), acts) && Quiet(Exec(Init({0, 1}), acts))
    ensures var c := Exec(Init({0, 1}), acts).cache;
            1 in c.queue && !Accessible(c, 1) && !Held(c, 1) && Accessible(c, 2) && 2 !in c.queue
  {
    acts := Inserts([]);
    acts := Crosses(acts);
    acts := Overtaken(acts);
    acts := Unmarks(acts);
    acts := Wakes(acts);
  }
}
