/** Two runs in which an eviction releases the item it read and yet returns no slot: the child it was
    after went to another parent, and the slot of the old parent is linked again. */
module ParentReused {
  import opened Basics
  import opened Chains
  import opened Slots
  import opened EvictionRace

  const PARENT: Item := 1
  const HEIR: Item := 2
  const CHILD: Item := 3
  const THREAD: ThreadId := 7

  ghost predicate Takes(s: State, op: Op, s': State) {
    Enabled(s, op) && Apply(s, op) == s'
  }

  ghost predicate Goes(w: World, a: Action, w': World) {
    Possible(w, a) && Next(w, a) == w'
  }

  lemma {:induction false} Path(ws: seq<World>, acts: seq<Action>)
    requires |ws| == |acts| + 1 && (forall i :: 0 <= i < |acts| ==> Goes(ws[i], acts[i], ws[i + 1]))
    ensures AllPossible(ws[0], acts) && After(ws[0], acts) == ws[|acts|]
    decreases |acts|
  {
    hide Possible, Next;
    if acts != [] {
      assert Goes(ws[0], acts[0], ws[1]);
      forall i | 0 <= i < |acts[1..]| ensures Goes(ws[1..][i], acts[1..][i], ws[1..][i + 1]) {
        assert Goes(ws[i + 1], acts[i + 1], ws[i + 2]);
      }
      Path(ws[1..], acts[1..]);
    }
  }

  /** A parent and its child, and a third item that others hold. */
  function Items(live: set<Item>, parent: Item, handles: map<Item, nat>, refs: map<Item, nat>,
      accessible: set<Item>): State {
    State(live, map[CHILD := parent], map[], refs, accessible + {CHILD}, accessible, {}, {parent},
          map[parent := CHILD], 1, 1, map[parent := [CHILD]], {CHILD}, handles, {})
  }

  function Handles(parent: nat): map<Item, nat> {
    map[PARENT := parent, HEIR := 1, CHILD := 0]
  }

  function Refs(parent: nat): map<Item, nat> {
    map[PARENT := parent, HEIR := 1, CHILD := 1]
  }

  const ALL := {PARENT, HEIR, CHILD}

  // a parent with one child, that nobody holds
  const START := Items(ALL, PARENT, Handles(0), Refs(0), {PARENT})
  const HELD := Items(ALL, PARENT, Handles(1), Refs(1), {PARENT})
  // the chain handed over, the old parent replaced, and its slot freed
  const HANDED := Items(ALL, HEIR, Handles(1), Refs(1), {HEIR})
  const FREED := Items({HEIR, CHILD}, HEIR, Handles(0), Refs(0), {HEIR})
  // an item in the old parent's slot again, linked, and held no more
  const AGAIN := Items(ALL, HEIR, Handles(1), Refs(1), {PARENT, HEIR})
  const END := Items(ALL, HEIR, Handles(0), Refs(0), {PARENT, HEIR})
  // the same, with the heir replaced
  const INSTEAD := Items(ALL, HEIR, Handles(1), Refs(1), {PARENT})
  const END_INSTEAD := Items(ALL, HEIR, Handles(0), Refs(0), {PARENT})

  lemma Acquired()
    ensures Takes(START, Acquire(PARENT), HELD)
  {
    FewerHandles();
  }

  lemma ChainMoves()
    ensures Transferred(map[PARENT := [CHILD]], PARENT, HEIR) == map[HEIR := [CHILD]]
    ensures Rekeyed(map[CHILD := PARENT], [CHILD], HEIR) == map[CHILD := HEIR]
    ensures (map[PARENT := CHILD] - {PARENT})[HEIR := CHILD] == map[HEIR := CHILD]
  {
  }

  lemma HandOver()
    ensures Takes(HELD, Transfer(PARENT, HEIR), HANDED)
  {
    hide Transferred, Rekeyed;
    ChainMoves();
    assert HELD.inMM + {HEIR} - {PARENT} == HANDED.inMM;
    assert HELD.accessible + {HEIR} - {PARENT} == HANDED.accessible;
    assert HELD.hasChained + {HEIR} - {PARENT} == {HEIR};
  }

  lemma FewerHandles()
    ensures Handles(1)[PARENT := 0] == Handles(0) && Refs(1)[PARENT := 0] == Refs(0)
    ensures Handles(0)[PARENT := 1] == Handles(1) && Refs(0)[PARENT := 1] == Refs(1)
  {
  }

  /** Dropping the last handle of a linked item. */
  lemma DropLinked(owner: Item, accessible: set<Item>)
    requires PARENT in accessible
    ensures Takes(Items(ALL, owner, Handles(1), Refs(1), accessible), Drop(PARENT),
            Items(ALL, owner, Handles(0), Refs(0), accessible))
  {
    hide WithReleased;
    FewerHandles();
  }

  lemma ReleasedAlone(s: State, x: Item)
    requires x !in s.chains && x !in s.parentOf && x !in s.heads && x !in s.hasChained
    ensures WithReleased(s, x, None) == s.(live := s.live - {x})
  {
    assert ChainOf(s.chains, x) == [] && Members([]) == {} && Family(s, x) == {x};
    assert Zeroed(s.refs, {}) == s.refs && s.inMM - {} == s.inMM && s.kids - {} == s.kids;
    assert s.chains - {x} == s.chains && s.heads - {x} == s.heads && s.next - {} == s.next;
    assert s.parentOf - {x} == s.parentOf && s.hasChained - {x} == s.hasChained && s.recycled + {} == s.recycled;
  }

  /** Dropping the last handle of an item that is linked nowhere frees it. */
  lemma DropUnlinked()
    ensures Takes(HANDED, Drop(PARENT), FREED)
  {
    hide WithReleased;
    FewerHandles();
    ReleasedAlone(WithHandles(HANDED, PARENT, 0), PARENT);
    assert ALL - {PARENT} == FREED.live;
  }

  lemma AllocateAgain()
    ensures Takes(FREED, Allocate(PARENT), HANDED)
  {
    FewerHandles();
    assert FREED.live + {PARENT} == ALL;
  }

  lemma InsertAgain()
    ensures Takes(HANDED, Insert(PARENT), AGAIN)
  {
    assert HANDED.inMM + {PARENT} == AGAIN.inMM && HANDED.accessible + {PARENT} == AGAIN.accessible;
  }

  lemma UnlinkHeir()
    ensures Takes(AGAIN, Unlink(HEIR), INSTEAD)
  {
    assert AGAIN.inMM - {HEIR} == INSTEAD.inMM && AGAIN.accessible - {HEIR} == INSTEAD.accessible;
  }

  // ---------- from the beginning ----------

  const E1 := State({PARENT}, map[], map[], map[PARENT := 1], {}, {}, {}, {}, map[], 0, 0, map[], {}, map[PARENT := 1],
      {})
  const E2 := E1.(inMM := {PARENT}, accessible := {PARENT})
  const E3 := E2.(live := {PARENT, CHILD}, parentOf := map[CHILD := PARENT], refs := map[PARENT := 1, CHILD := 1],
                  handles := map[PARENT := 1, CHILD := 1])
  const E4 := E3.(chains := map[PARENT := [CHILD]], kids := {CHILD}, heads := map[PARENT := CHILD],
      hasChained := {PARENT},
                  numParents := 1, numChildren := 1, handles := map[PARENT := 1, CHILD := 0], inMM := {PARENT, CHILD})

  lemma Beginning()
    ensures Takes(EMPTY, Allocate(PARENT), E1) && Takes(E1, Insert(PARENT), E2)
    ensures Takes(E2, AllocateChild(CHILD, PARENT), E3)
  {
    assert E1.inMM + {PARENT} == E2.inMM;
    assert E2.live + {CHILD} == E3.live && E2.parentOf[CHILD := PARENT] == E3.parentOf;
    assert E2.handles[CHILD := 1] == E3.handles && E2.refs[CHILD := 1] == E3.refs;
  }

  lemma Chained()
    ensures Takes(E3, AddChild(PARENT, CHILD), E4)
  {
    assert Pushed(E3.chains, PARENT, CHILD) == E4.chains by { assert [CHILD] + [] == [CHILD]; }
    assert E3.handles[CHILD := 0] == E4.handles && E3.inMM + {CHILD} == E4.inMM;
    assert E3.heads[PARENT := CHILD] == E4.heads && E3.hasChained + {PARENT} == E4.hasChained
        && E3.kids + {CHILD} == E4.kids;
  }

  lemma HeirAllocated()
    ensures Takes(E4, Allocate(HEIR), HELD)
  {
    assert E4.live + {HEIR} == ALL && E4.handles[HEIR := 1] == HELD.handles && E4.refs[HEIR := 1] == HELD.refs;
  }

  // ---------- the runs ----------

  const NO_LOOKS: map<ThreadId, Look> := map[]
  const SEEN := map[THREAD := Look(CHILD, true, PARENT, false)]
  const OVERTAKEN := map[THREAD := Look(CHILD, true, PARENT, true)]

  lemma Unwatched(s: State, op: Op, s': State)
    requires Takes(s, op, s')
    ensures Goes(World(s, NO_LOOKS), Other(op), World(s', NO_LOOKS))
  {
    hide Enabled, Apply;
    assert Watched(NO_LOOKS, s') == NO_LOOKS;
  }

  lemma WatchedStep(s: State, op: Op, s': State, left: bool)
    requires Takes(s, op, s') && CHILD in s'.inMM
    ensures Goes(World(s, map[THREAD := Look(CHILD, true, PARENT, left)]), Other(op),
                 World(s', map[THREAD := Look(CHILD, true, PARENT, left || !InBoth(s', PARENT))]))
  {
    hide Enabled, Apply, InBoth;
  }

  lemma ReadStep()
    ensures Goes(World(START, NO_LOOKS), Read(THREAD, CHILD), World(START, SEEN))
  {
    assert NO_LOOKS[THREAD := Look(CHILD, true, PARENT, false)] == SEEN;
  }

  const BEGINNING: seq<Action> :=
    [Other(Allocate(PARENT)), Other(Insert(PARENT)), Other(AllocateChild(CHILD, PARENT)),
     Other(AddChild(PARENT, CHILD)),
     Other(Allocate(HEIR)), Other(Drop(PARENT))]

  lemma BeginningRuns()
    ensures AllPossible(World(EMPTY, NO_LOOKS), BEGINNING)
    ensures After(World(EMPTY, NO_LOOKS), BEGINNING) == World(START, NO_LOOKS)
  {
    hide Takes, Goes, AllPossible, After;
    Beginning();
    Chained();
    HeirAllocated();
    DropLinked(PARENT, {PARENT});
    Unwatched(EMPTY, Allocate(PARENT), E1);
    Unwatched(E1, Insert(PARENT), E2);
    Unwatched(E2, AllocateChild(CHILD, PARENT), E3);
    Unwatched(E3, AddChild(PARENT, CHILD), E4);
    Unwatched(E4, Allocate(HEIR), HELD);
    Unwatched(HELD, Drop(PARENT), START);
    Path([World(EMPTY, NO_LOOKS), World(E1, NO_LOOKS), World(E2, NO_LOOKS), World(E3, NO_LOOKS), World(E4, NO_LOOKS),
          World(HELD, NO_LOOKS), World(START, NO_LOOKS)], BEGINNING);
  }

  /** The thread reads the child's parent; then the chain goes to another parent, the old one is freed, and
      its slot is used for a new item. */
  const REUSE: seq<Action> :=
    [Read(THREAD, CHILD), Other(Acquire(PARENT)), Other(Transfer(PARENT, HEIR)), Other(Drop(PARENT)),
     Other(Allocate(PARENT)), Other(Insert(PARENT)), Other(Drop(PARENT))]

  lemma ReuseRuns()
    ensures AllPossible(World(START, NO_LOOKS), REUSE) && After(World(START, NO_LOOKS), REUSE) == World(END, OVERTAKEN)
  {
    hide Takes, Goes, AllPossible, After;
    ReadStep();
    Acquired();
    HandOver();
    DropUnlinked();
    AllocateAgain();
    InsertAgain();
    DropLinked(HEIR, {PARENT, HEIR});
    WatchedStep(START, Acquire(PARENT), HELD, false);
    WatchedStep(HELD, Transfer(PARENT, HEIR), HANDED, false);
    WatchedStep(HANDED, Drop(PARENT), FREED, true);
    WatchedStep(FREED, Allocate(PARENT), HANDED, true);
    WatchedStep(HANDED, Insert(PARENT), AGAIN, true);
    WatchedStep(AGAIN, Drop(PARENT), END, true);
    Path([World(START, NO_LOOKS), World(START, SEEN), World(HELD, SEEN), World(HANDED, OVERTAKEN),
          World(FREED, OVERTAKEN),
          World(HANDED, OVERTAKEN), World(AGAIN, OVERTAKEN), World(END, OVERTAKEN)], REUSE);
  }

  /** The same, but the old parent is not freed: whoever holds it inserts it again, and it replaces the
      new one. */
  const REINSERTION: seq<Action> :=
    [Read(THREAD, CHILD), Other(Acquire(PARENT)), Other(Transfer(PARENT, HEIR)), Other(Insert(PARENT)),
     Other(Unlink(HEIR)), Other(Drop(PARENT))]

  lemma ReinsertionRuns()
    ensures AllPossible(World(START, NO_LOOKS), REINSERTION)
    ensures After(World(START, NO_LOOKS), REINSERTION) == World(END_INSTEAD, OVERTAKEN)
  {
    hide Takes, Goes, AllPossible, After;
    ReadStep();
    Acquired();
    HandOver();
    InsertAgain();
    UnlinkHeir();
    DropLinked(HEIR, {PARENT});
    WatchedStep(START, Acquire(PARENT), HELD, false);
    WatchedStep(HELD, Transfer(PARENT, HEIR), HANDED, false);
    WatchedStep(HANDED, Insert(PARENT), AGAIN, true);
    WatchedStep(AGAIN, Unlink(HEIR), INSTEAD, true);
    WatchedStep(INSTEAD, Drop(PARENT), END_INSTEAD, true);
    Path([World(START, NO_LOOKS), World(START, SEEN), World(HELD, SEEN), World(HANDED, OVERTAKEN),
          World(AGAIN, OVERTAKEN),
          World(INSTEAD, OVERTAKEN), World(END_INSTEAD, OVERTAKEN)], REINSERTION);
  }

  lemma {:induction false} AfterJoin(w: World, acts: seq<Action>, more: seq<Action>)
    requires AllPossible(w, acts) && AllPossible(After(w, acts), more)
    ensures AllPossible(w, acts + more) && After(w, acts + more) == After(After(w, acts), more)
    decreases |acts|
  {
    if acts == [] {
      assert acts + more == more;
    } else {
      hide Possible, Next;
      assert (acts + more)[1..] == acts[1..] + more;
      AfterJoin(Next(w, acts[0]), acts[1..], more);
    }
  }

  /** The eviction can mark the item it read and releases it, but returns nothing; the child stays queued in
      its new parent's chain. */
  ghost predicate ReturnsNothing(w: World) {
    && THREAD in w.looks && Markable(w.s, w.looks[THREAD].candidate) && Returned(w.s, w.looks[THREAD]) == None
    && var s' := Taken(w.s, w.looks[THREAD]);
       PARENT !in s'.live && CHILD in s'.inMM && CHILD in s'.parentOf && s'.parentOf[CHILD] == HEIR
  }

  lemma EndReturnsNothing(acts: seq<Action>, accessible: set<Item>)
    requires PARENT in accessible && AllPossible(World(EMPTY, map[]), acts)
    requires After(World(EMPTY, map[]), acts) == World(Items(ALL, HEIR, Handles(0), Refs(0), accessible), OVERTAKEN)
    ensures ReturnsNothing(World(Items(ALL, HEIR, Handles(0), Refs(0), accessible), OVERTAKEN))
  {
    hide Taken, Returned, AllPossible, After;
    var s := Items(ALL, HEIR, Handles(0), Refs(0), accessible);
    assert Markable(s, PARENT);
    EvictsFamily(acts, THREAD);
    assert ReleasesFamily(s, OVERTAKEN[THREAD]);
    assert ChainOf(s.chains, PARENT) == [] && Family(s, PARENT) == {PARENT};
    EitherOrNone(s, OVERTAKEN[THREAD]);
  }

  lemma EitherOrNone(s: State, l: Look)
    ensures Returned(s, l) == Some(l.x) || Returned(s, l) == None
  {
  }

  /** From an empty cache: by reuse of the parent's slot. */
  lemma SlotReused()
    ensures AllPossible(World(EMPTY, map[]), BEGINNING + REUSE)
    ensures ReturnsNothing(After(World(EMPTY, map[]), BEGINNING + REUSE))
  {
    hide AllPossible, After, ReturnsNothing;
    BeginningRuns();
    ReuseRuns();
    AfterJoin(World(EMPTY, NO_LOOKS), BEGINNING, REUSE);
    EndReturnsNothing(BEGINNING + REUSE, {PARENT, HEIR});
  }

  /** From an empty cache: by inserting the parent again. */
  lemma InsertedAgain()
    ensures AllPossible(World(EMPTY, map[]), BEGINNING + REINSERTION)
    ensures ReturnsNothing(After(World(EMPTY, map[]), BEGINNING + REINSERTION))
  {
    hide AllPossible, After, ReturnsNothing;
    BeginningRuns();
    ReinsertionRuns();
    AfterJoin(World(EMPTY, NO_LOOKS), BEGINNING, REINSERTION);
    EndReturnsNothing(BEGINNING + REINSERTION, {PARENT});
  }
}
