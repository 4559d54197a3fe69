/** Readers that meet an item being moved park a wait context in the move map under the item's
    key; slab-release threads wake them.

    Steps are atomic updates of one item's mark or reference count, or one critical section of
    the move map's lock. An `Item` is a slot: once freed it can be used again under another key.
    Keys are read from the slots where the code reads them, and an entry of the move map keeps its
    key in the slot of the item it was made for. */
module WakeUp {
  import opened Basics

  type Item = int
  type Waiter = int
  type ThreadId = int

  /** `Gone` is an item that is being evicted, or was moved away, and is not freed yet. */
  datatype Mark = Unmarked | Moving | Gone | Free

  datatype ItemInfo = ItemInfo(key: Key, mark: Mark)

  /** On whose behalf a handle is acquired: for a reader, or for a release thread that looks up
      its parent again before it wakes the waiters of the parent's key. */
  datatype Purpose = Reader | Release(parent: Item)

  datatype Pc =
    | Idle
    | Acquiring(i: Item, why: Purpose)
      // the item refused a reference because it is moving; the move map is not locked yet
    | SawMoving(i: Item, why: Purpose)
      // a release thread, from marking to waking; the item is its own until then, or a parent,
      // which it gave up when it unmarked it
    | Marked(i: Item)
    | Looking(parent: Item)
    | Blocked(parent: Item, w: Waiter)
    | Ready(i: Item, own: bool)
    | Waking(ws: seq<Waiter>)

  /** An entry of the move map: the key it was made under, and the item in whose slot the key is. */
  datatype Entry = Entry(k: Key, at: Item)

  datatype State = State(
    item: map<Item, ItemInfo>,
    // the move map: wait contexts in arrival order
    parked: map<Entry, seq<Waiter>>,
    // how often each wait context was set
    sets: map<Waiter, nat>,
    pc: map<ThreadId, Pc>)

  datatype Action =
    | Create(i: Item, k: Key)
    | Evict(i: Item)
    | FreeSlot(i: Item)
    | Read(t: ThreadId, i: Item)
    | Mark(t: ThreadId, i: Item)
    | Moved(t: ThreadId)
    | ChildMoved(t: ThreadId)
    | GiveUp(t: ThreadId)
    | Miss(t: ThreadId)
    | Hit(t: ThreadId, i: Item)
    | Reference(t: ThreadId)
    | Park(t: ThreadId, w: Waiter, at: Item)
    | Resume(t: ThreadId)
    | Wake(t: ThreadId, at: Item)
    | SetNext(t: ThreadId)

  predicate IsMoving(s: State, i: Item) {
    i in s.item && s.item[i].mark == Moving
  }

  predicate Linked(s: State, i: Item) {
    i in s.item && s.item[i].mark != Free
  }

  predicate HasKey(s: State, i: Item, k: Key) {
    i in s.item && s.item[i].key == k
  }

  /** A lookup of `k` in the move map compares it with what is in the entry's slot now. */
  predicate Finds(s: State, k: Key, at: Item) {
    Entry(k, at) in s.parked && HasKey(s, at, k)
  }

  ghost predicate FindsNone(s: State, k: Key) {
    forall at :: !Finds(s, k, at)
  }

  /** Whether a thread keeps the slot from being freed: it reads the item under its bucket's lock,
      or owns it. */
  predicate Keeps(p: Pc, i: Item) {
    match p
    case Acquiring(j, _) => j == i
    case SawMoving(j, _) => j == i
    case Ready(j, own) => j == i && own
    case _ => false
  }

  ghost predicate Enabled(s: State, a: Action) {
    match a
    case Create(i, k) => i !in s.item || s.item[i].mark == Free
    case Evict(i) => i in s.item && s.item[i].mark == Unmarked
    case FreeSlot(i) => i in s.item && s.item[i].mark == Gone && forall t :: t in s.pc ==> !Keeps(s.pc[t], i)
    case Read(t, i) => t in s.pc && s.pc[t] == Idle && Linked(s, i)
    case Mark(t, i) => t in s.pc && s.pc[t] == Idle && i in s.item && s.item[i].mark == Unmarked
    case Moved(t) => t in s.pc && s.pc[t].Marked? && s.pc[t].i in s.item
    case ChildMoved(t) => t in s.pc && s.pc[t].Marked? && s.pc[t].i in s.item
    case GiveUp(t) => t in s.pc && s.pc[t].Marked? && s.pc[t].i in s.item
    case Miss(t) => t in s.pc && s.pc[t].Looking?
    case Hit(t, i) => t in s.pc && s.pc[t].Looking? && Linked(s, i) && HasKey(s, s.pc[t].parent, s.item[i].key)
    case Reference(t) => t in s.pc && s.pc[t].Acquiring? && s.pc[t].i in s.item
    case Park(t, w, at) =>
      && t in s.pc && s.pc[t].SawMoving? && s.pc[t].i in s.item && w !in s.sets
      && (var k := s.item[s.pc[t].i].key; Finds(s, k, at) || (FindsNone(s, k) && at == s.pc[t].i))
    case Resume(t) => t in s.pc && s.pc[t].Blocked? && s.pc[t].w in s.sets && s.sets[s.pc[t].w] > 0
    case Wake(t, at) =>
      && t in s.pc && s.pc[t].Ready? && s.pc[t].i in s.item
      && (var k := s.item[s.pc[t].i].key; Finds(s, k, at) || FindsNone(s, k))
    case SetNext(t) => t in s.pc && s.pc[t].Waking? && (s.pc[t].ws != [] ==> s.pc[t].ws[0] in s.sets)
  }

  function SetMark(s: State, i: Item, m: Mark): State
    requires i in s.item
  {
    s.(item := s.item[i := s.item[i].(mark := m)])
  }

  function Goto(s: State, t: ThreadId, q: Pc): State {
    s.(pc := s.pc[t := q])
  }

  function After(why: Purpose): Pc {
    match why
    case Reader => Idle
    case Release(parent) => Ready(parent, false)
  }

  function At(s: State, e: Entry): seq<Waiter> {
    if e in s.parked then s.parked[e] else []
  }

  /** Under the move map's lock: park a fresh context if the item is still moving, else retry. */
  function ParkOrRetry(s: State, t: ThreadId, i: Item, why: Purpose, w: Waiter, at: Item): State
    requires i in s.item
  {
    if !IsMoving(s, i) then Goto(s, t, Acquiring(i, why))
    else
      var e := Entry(s.item[i].key, at);
      Goto(s.(parked := s.parked[e := At(s, e) + [w]], sets := s.sets[w := 0]),
           t, if why.Reader? then Idle else Blocked(why.parent, w))
  }

  ghost function Step(s: State, a: Action): State
    requires Enabled(s, a)
  {
    match a
    case Create(i, k) => s.(item := s.item[i := ItemInfo(k, Unmarked)])
    case Evict(i) => SetMark(s, i, Gone)
    case FreeSlot(i) => SetMark(s, i, Free)
    case Read(t, i) => Goto(s, t, Acquiring(i, Reader))
    case Mark(t, i) => Goto(SetMark(s, i, Moving), t, Marked(i))
    case Moved(t) => Goto(SetMark(s, s.pc[t].i, Gone), t, Ready(s.pc[t].i, true))
    case ChildMoved(t) => Goto(SetMark(s, s.pc[t].i, Unmarked), t, Looking(s.pc[t].i))
    case GiveUp(t) => Goto(SetMark(s, s.pc[t].i, Gone), t, Ready(s.pc[t].i, true))
    case Miss(t) => Goto(s, t, Ready(s.pc[t].parent, false))
    case Hit(t, i) => Goto(s, t, Acquiring(i, Release(s.pc[t].parent)))
    case Reference(t) =>
      var Acquiring(i, why) := s.pc[t];
      Goto(s, t, if IsMoving(s, i) then SawMoving(i, why) else After(why))
    case Park(t, w, at) => ParkOrRetry(s, t, s.pc[t].i, s.pc[t].why, w, at)
    case Resume(t) => Goto(s, t, Ready(s.pc[t].parent, false))
    case Wake(t, at) =>
      var e := Entry(s.item[s.pc[t].i].key, at);
      if HasKey(s, at, e.k) then Goto(s.(parked := s.parked - {e}), t, Waking(At(s, e)))
      else Goto(s, t, Waking([]))
    case SetNext(t) =>
      var ws := s.pc[t].ws;
      if ws == [] then Goto(s, t, Idle)
      else Goto(s.(sets := s.sets[ws[0] := s.sets[ws[0]] + 1]), t, Waking(ws[1..]))
  }

  function Init(threads: set<ThreadId>): State {
    State(map[], map[], map[], map t | t in threads :: Idle)
  }

  ghost predicate Runs(s: State, acts: seq<Action>)
    decreases |acts|
  {
    acts == [] || (Enabled(s, acts[0]) && Runs(Step(s, acts[0]), acts[1..]))
  }

  ghost function Exec(s: State, acts: seq<Action>): State
    requires Runs(s, acts)
    decreases |acts|
  {
    if acts == [] then s else Exec(Step(s, acts[0]), acts[1..])
  }

  // ---------- what the steps do ----------

  /** Only the marks and the thread's place change. */
  predicate OnlyMarks(s: State, s': State, t: ThreadId, i: Item, m: Mark, q: Pc)
    requires i in s.item
  {
    s'.item == s.item[i := ItemInfo(s.item[i].key, m)] && s'.parked == s.parked && s'.sets == s.sets
    && s'.pc == s.pc[t := q]
  }

  /** A reader is refused a reference exactly by a moving item. If the item still moves under the
      lock, a fresh unset context is parked behind those that wait for the same key already; if not,
      the reader tries again. A waker takes all contexts of its key out of the map, and sets them one
      after the other in arrival order. */
  lemma WaitSteps(s: State, a: Action)
    requires Enabled(s, a) && (a.Reference? || a.Park? || a.Wake? || a.SetNext? || a.Resume?)
    ensures var s', p := Step(s, a), s.pc[a.t];
            s'.item == s.item &&
            match a
            case Reference(t) =>
              && s'.parked == s.parked && s'.sets == s.sets
              && (if s.item[p.i].mark == Moving then s'.pc[t] == SawMoving(p.i, p.why)
                  else if p.why.Reader? then s'.pc[t] == Idle else s'.pc[t] == Ready(p.why.parent, false))
            case Park(t, w, at) =>
              var e := Entry(s.item[p.i].key, at);
              if s.item[p.i].mark == Moving then
                && s'.parked == s.parked[e := (if e in s.parked then s.parked[e] else []) + [w]]
                && s'.sets == s.sets[w := 0]
                && s'.pc[t] == if p.why.Reader? then Idle else Blocked(p.why.parent, w)
              else s'.parked == s.parked && s'.sets == s.sets && s'.pc[t] == Acquiring(p.i, p.why)
            case Wake(t, at) =>
              var e := Entry(s.item[p.i].key, at);
              && s'.sets == s.sets
              && (if Finds(s, e.k, at) then s'.parked == s.parked - {e} && s'.pc[t] == Waking(s.parked[e])
                  else s'.parked == s.parked && s'.pc[t] == Waking([]))
            case SetNext(t) =>
              && s'.parked == s.parked
              && (if p.ws == [] then s'.sets == s.sets && s'.pc[t] == Idle
                  else s'.sets == s.sets[p.ws[0] := s.sets[p.ws[0]] + 1] && s'.pc[t] == Waking(p.ws[1..]))
            case Resume(t) => s'.parked == s.parked && s'.sets == s.sets && s'.pc[t] == Ready(p.parent, false)
            case _ => true
  {
    if a.Wake? && Entry(s.item[s.pc[a.t].i].key, a.at) !in s.parked {
      assert s.parked - {Entry(s.item[s.pc[a.t].i].key, a.at)} == s.parked;
    }
  }

  /** A release thread marks an item nobody marked; afterwards the item is gone, or it is a parent,
      whose mark is taken off before it is looked up again. Either way the thread goes on to wake. */
  lemma ReleaseSteps(s: State, a: Action)
    requires Enabled(s, a) && (a.Mark? || a.Moved? || a.ChildMoved? || a.GiveUp?)
    ensures var i := if a.Mark? then a.i else s.pc[a.t].i;
            match a
            case Mark(t, _) => s.item[i].mark == Unmarked && OnlyMarks(s, Step(s, a), t, i, Moving, Marked(i))
            case ChildMoved(t) => OnlyMarks(s, Step(s, a), t, i, Unmarked, Looking(i))
            case _ => OnlyMarks(s, Step(s, a), a.t, i, Gone, Ready(i, true))
  {
  }

  // ---------- what is kept ----------

  /** The thread has yet to wake the waiters of `k`, as its item's key stands, and waits for nobody
      itself. A thread that looks its parent up may still wait for the item it found. */
  predicate WillWake(s: State, p: Pc, k: Key) {
    match p
    case Marked(i) => HasKey(s, i, k)
    case Looking(parent) => HasKey(s, parent, k)
    case Ready(i, _) => HasKey(s, i, k)
    case Acquiring(j, Release(parent)) => HasKey(s, parent, k) && HasKey(s, j, k)
    case SawMoving(j, Release(parent)) => HasKey(s, parent, k) && HasKey(s, j, k)
    case _ => false
  }

  ghost predicate Attended(s: State, k: Key) {
    exists t :: t in s.pc && WillWake(s, s.pc[t], k)
  }

  ghost predicate MarkedBySome(s: State, i: Item) {
    exists t :: t in s.pc && s.pc[t] == Marked(i)
  }

  predicate PcOk(s: State, p: Pc) {
    match p
    case Marked(i) => IsMoving(s, i)
    case Acquiring(i, why) => i in s.item && (why.Release? ==> why.parent in s.item)
    case SawMoving(i, why) => i in s.item && (why.Release? ==> why.parent in s.item)
    case Looking(parent) => parent in s.item
    case Blocked(parent, w) => parent in s.item && w in s.sets
    case Ready(i, own) => i in s.item && (own ==> s.item[i].mark == Gone)
    case _ => true
  }

  ghost predicate Marks(s: State) {
    && (forall t :: t in s.pc ==> PcOk(s, s.pc[t]))
    && (forall t, u :: t in s.pc && u in s.pc && t != u && s.pc[t].Marked? ==> s.pc[t] != s.pc[u])
    && (forall i :: IsMoving(s, i) ==> MarkedBySome(s, i))
  }

  /** Every entry can be found, is the only one for its key, and somebody will wake that key. */
  ghost predicate NoLostWakeUp(s: State) {
    && (forall e :: e in s.parked ==> s.parked[e] != [] && HasKey(s, e.at, e.k) && Attended(s, e.k))
    && (forall d, e :: d in s.parked && e in s.parked && d.k == e.k ==> d == e)
  }

  /** A list of waiters: one in the move map, or the one a thread is working through. */
  datatype Place = Under(e: Entry) | WithThread(t: ThreadId)

  function Waiters(s: State, p: Place): seq<Waiter> {
    match p
    case Under(e) => At(s, e)
    case WithThread(t) => if t in s.pc && s.pc[t].Waking? then s.pc[t].ws else []
  }

  ghost predicate Somewhere(s: State, w: Waiter) {
    exists p :: w in Waiters(s, p)
  }

  /** Every context is in exactly one list, unset, or in none and set once. */
  ghost predicate Contexts(s: State) {
    && (forall p :: Distinct(Waiters(s, p)))
    && (forall p, q, w :: p != q && w in Waiters(s, p) ==> w !in Waiters(s, q))
    && (forall p, w :: w in Waiters(s, p) ==> w in s.sets && s.sets[w] == 0)
    && (forall w :: w in s.sets ==> Somewhere(s, w) || s.sets[w] == 1)
  }

  /** What every interleaving keeps, whatever slots are used again. */
  ghost predicate Inv(s: State) {
    Marks(s) && Contexts(s)
  }

  // ---------- marks ----------

  lemma StillMarked(s: State, a: Action, i: Item)
    requires Marks(s) && Enabled(s, a) && IsMoving(Step(s, a), i)
    ensures MarkedBySome(Step(s, a), i)
  {
    var s' := Step(s, a);
    if a.Mark? && a.i == i {
      assert s'.pc[a.t] == Marked(i);
    } else {
      assert IsMoving(s, i);
      var t :| t in s.pc && s.pc[t] == Marked(i);
      assert s'.pc[t] == Marked(i);
    }
  }

  predicate ByThread(a: Action) {
    !a.Create? && !a.Evict? && !a.FreeSlot?
  }

  predicate By(a: Action, t: ThreadId) {
    ByThread(a) && a.t == t
  }

  lemma OtherPc(s: State, a: Action, t: ThreadId)
    requires Enabled(s, a) && t in s.pc && !By(a, t)
    ensures t in Step(s, a).pc && Step(s, a).pc[t] == s.pc[t]
  {
  }

  lemma ItemsStay(s: State, a: Action, i: Item)
    requires Enabled(s, a) && i in s.item
    ensures i in Step(s, a).item
    ensures IsMoving(s, i) && !IsMoving(Step(s, a), i) ==> ByThread(a) && a.t in s.pc && s.pc[a.t] == Marked(i)
    ensures s.item[i].mark == Gone && Step(s, a).item[i].mark != Gone ==>
            a == FreeSlot(i) || (ByThread(a) && a.t in s.pc && s.pc[a.t] == Marked(i))
  {
  }

  lemma ContextsStay(s: State, a: Action, w: Waiter)
    requires Enabled(s, a) && w in s.sets
    ensures w in Step(s, a).sets
  {
  }

  lemma FreeKeeps(s: State, i: Item, t: ThreadId)
    requires Enabled(s, FreeSlot(i)) && t in s.pc
    ensures !Keeps(s.pc[t], i)
  {
  }

  /** Slots that others keep or have marked are not touched. */
  lemma OtherKept(s: State, a: Action, t: ThreadId)
    requires Marks(s) && Enabled(s, a) && t in s.pc && !By(a, t)
    ensures t in Step(s, a).pc && PcOk(Step(s, a), Step(s, a).pc[t])
  {
    hide Enabled, Step, IsMoving;
    OtherPc(s, a, t);
    assert PcOk(s, s.pc[t]);
    if ByThread(a) && a.t in s.pc {
      assert PcOk(s, s.pc[a.t]);
    }
    if a.FreeSlot? {
      FreeKeeps(s, a.i, t);
    }
    match s.pc[t] {
      case Marked(i) => MovingKept(s, a, t, i);
      case Acquiring(i, why) => ItemsStay(s, a, i); if why.Release? { ItemsStay(s, a, why.parent); }
      case SawMoving(i, why) => ItemsStay(s, a, i); if why.Release? { ItemsStay(s, a, why.parent); }
      case Looking(parent) => ItemsStay(s, a, parent);
      case Blocked(parent, w) => ItemsStay(s, a, parent); ContextsStay(s, a, w);
      case Ready(i, own) =>
        ItemsStay(s, a, i);
        if own {
          NotMovingAndGone(s, i);
        }
      case _ =>
    }
  }

  lemma NotMovingAndGone(s: State, i: Item)
    requires i in s.item && s.item[i].mark == Gone
    ensures !IsMoving(s, i)
  {
  }

  lemma MovingKept(s: State, a: Action, t: ThreadId, i: Item)
    requires Marks(s) && Enabled(s, a) && t in s.pc && s.pc[t] == Marked(i) && !By(a, t)
    ensures IsMoving(Step(s, a), i)
  {
    hide Enabled, Step;
    assert PcOk(s, s.pc[t]);
    ItemsStay(s, a, i);
  }

  lemma OwnKept(s: State, a: Action, t: ThreadId)
    requires Marks(s) && Enabled(s, a) && t in s.pc && By(a, t)
    ensures t in Step(s, a).pc && PcOk(Step(s, a), Step(s, a).pc[t])
  {
    assert PcOk(s, s.pc[t]);
  }

  lemma PcKept(s: State, a: Action, t: ThreadId)
    requires Marks(s) && Enabled(s, a) && t in s.pc
    ensures t in Step(s, a).pc && PcOk(Step(s, a), Step(s, a).pc[t])
  {
    hide Marks, Enabled, Step, PcOk;
    if By(a, t) {
      OwnKept(s, a, t);
    } else {
      OtherKept(s, a, t);
    }
  }

  lemma MarksKept(s: State, a: Action)
    requires Marks(s) && Enabled(s, a)
    ensures Marks(Step(s, a))
  {
    hide PcOk, IsMoving;
    var s' := Step(s, a);
    forall t | t in s'.pc ensures PcOk(s', s'.pc[t]) {
      PcKept(s, a, t);
    }
    forall i | IsMoving(s', i) ensures MarkedBySome(s', i) {
      StillMarked(s, a, i);
    }
    forall t, u | t in s'.pc && u in s'.pc && t != u && s'.pc[t].Marked? ensures s'.pc[t] != s'.pc[u] {
      MarkedApart(s, a, t, u);
    }
  }

  lemma MarkedApart(s: State, a: Action, t: ThreadId, u: ThreadId)
    requires Marks(s) && Enabled(s, a) && t in s.pc && u in s.pc && t != u
    ensures t in Step(s, a).pc && u in Step(s, a).pc
    ensures Step(s, a).pc[t].Marked? ==> Step(s, a).pc[t] != Step(s, a).pc[u]
  {
    assert PcOk(s, s.pc[t]) && PcOk(s, s.pc[u]);
  }

  // ---------- wake-ups ----------

  /** Whose key is the key in slot `i`, as far as the thread's waking goes. */
  predicate Through(p: Pc, i: Item) {
    match p
    case Marked(j) => j == i
    case Looking(parent) => parent == i
    case Ready(j, _) => j == i
    case Acquiring(j, Release(parent)) => j == i || parent == i
    case SawMoving(j, Release(parent)) => j == i || parent == i
    case _ => false
  }

  /** The one kind of step that loses a wake-up: a slot is used again under another key while contexts
      are parked under its old one, and either their entry keeps its key in that slot, or the only
      threads that would wake the old key read it there. */
  ghost predicate Loses(s: State, a: Action) {
    && a.Create? && a.i in s.item && s.item[a.i].key != a.k
    && var k := s.item[a.i].key;
       exists at :: Entry(k, at) in s.parked &&
                    (at == a.i || forall t :: t in s.pc && WillWake(s, s.pc[t], k) ==> Through(s.pc[t], a.i))
  }

  /** Parking needs a moving item, and whoever marked it is not blocked. */
  lemma ParkedAttended(s: State, a: Action)
    requires Marks(s) && Enabled(s, a) && a.Park? && IsMoving(s, s.pc[a.t].i)
    ensures Attended(Step(s, a), s.item[s.pc[a.t].i].key)
  {
    var s' := Step(s, a);
    var u :| u in s.pc && s.pc[u] == Marked(s.pc[a.t].i);
    assert WillWake(s', s'.pc[u], s.item[s.pc[a.t].i].key);
  }

  ghost predicate ParksOn(s: State, a: Action, k: Key) {
    a.Park? && a.t in s.pc && s.pc[a.t].SawMoving? && IsMoving(s, s.pc[a.t].i) && HasKey(s, s.pc[a.t].i, k)
  }

  ghost predicate WakesOn(s: State, a: Action, k: Key) {
    a.Wake? && a.t in s.pc && s.pc[a.t].Ready? && HasKey(s, s.pc[a.t].i, k)
  }

  lemma SameKeys(s: State, a: Action, i: Item, k: Key)
    requires Enabled(s, a) && !a.Create?
    ensures HasKey(Step(s, a), i, k) <==> HasKey(s, i, k)
  {
  }

  lemma StillAttended(s: State, a: Action, k: Key)
    requires Marks(s) && Enabled(s, a) && !a.Create? && Attended(s, k) && !ParksOn(s, a, k) && !WakesOn(s, a, k)
    ensures Attended(Step(s, a), k)
  {
    var t :| t in s.pc && WillWake(s, s.pc[t], k);
    WillStillWake(s, a, k, t);
    assert WillWake(Step(s, a), Step(s, a).pc[t], k);
  }

  lemma WillStillWake(s: State, a: Action, k: Key, t: ThreadId)
    requires Marks(s) && Enabled(s, a) && !a.Create? && !ParksOn(s, a, k) && !WakesOn(s, a, k)
    requires t in s.pc && WillWake(s, s.pc[t], k)
    ensures t in Step(s, a).pc && WillWake(Step(s, a), Step(s, a).pc[t], k)
  {
    hide Enabled, Step, HasKey, Marks;
    forall i ensures HasKey(Step(s, a), i, k) <==> HasKey(s, i, k) {
      SameKeys(s, a, i, k);
    }
    if By(a, t) {
      OwnStillWakes(s, a, k);
    } else {
      OtherPc(s, a, t);
    }
  }

  lemma OwnStillWakes(s: State, a: Action, k: Key)
    requires Enabled(s, a) && ByThread(a) && !ParksOn(s, a, k) && !WakesOn(s, a, k)
    requires a.t in s.pc && WillWake(s, s.pc[a.t], k)
    ensures a.t in Step(s, a).pc && WillWake(Step(s, a), Step(s, a).pc[a.t], k)
  {
  }

  /** Without a slot taken into use, nothing is lost. */
  lemma AttendedKept(s: State, a: Action)
    requires Marks(s) && NoLostWakeUp(s) && Enabled(s, a) && !a.Create?
    ensures NoLostWakeUp(Step(s, a))
  {
    var s' := Step(s, a);
    forall e | e in s'.parked ensures s'.parked[e] != [] && HasKey(s', e.at, e.k) && Attended(s', e.k) {
      EntryKept(s, a, e);
    }
    forall d, e | d in s'.parked && e in s'.parked && d.k == e.k ensures d == e {
      EntriesApart(s, a, d, e);
    }
  }

  lemma EntryKept(s: State, a: Action, e: Entry)
    requires Marks(s) && NoLostWakeUp(s) && Enabled(s, a) && !a.Create? && e in Step(s, a).parked
    ensures Step(s, a).parked[e] != [] && HasKey(Step(s, a), e.at, e.k) && Attended(Step(s, a), e.k)
  {
    SameKeys(s, a, e.at, e.k);
    if ParksOn(s, a, e.k) {
      ParkedAttended(s, a);
    } else {
      StillQueued(s, a, e);
      StillAttended(s, a, e.k);
    }
  }

  /** Waking a key takes its one entry. */
  lemma WakeTakes(s: State, a: Action, e: Entry)
    requires NoLostWakeUp(s) && Enabled(s, a) && e in s.parked && WakesOn(s, a, e.k)
    ensures e !in Step(s, a).parked
  {
    assert Entry(e.k, e.at) == e && Finds(s, e.k, e.at);
    assert Finds(s, e.k, a.at);
  }

  lemma OtherEntries(s: State, a: Action, e: Entry)
    requires Enabled(s, a) && e in Step(s, a).parked && !ParksOn(s, a, e.k)
    ensures e in s.parked && Step(s, a).parked[e] == s.parked[e]
  {
  }

  lemma StillQueued(s: State, a: Action, e: Entry)
    requires NoLostWakeUp(s) && Enabled(s, a) && e in Step(s, a).parked && !ParksOn(s, a, e.k)
    ensures e in s.parked && Step(s, a).parked[e] == s.parked[e] && !WakesOn(s, a, e.k)
  {
    hide NoLostWakeUp, Enabled, Step, ParksOn, WakesOn;
    OtherEntries(s, a, e);
    if WakesOn(s, a, e.k) {
      WakeTakes(s, a, e);
    }
  }

  lemma EntriesApart(s: State, a: Action, d: Entry, e: Entry)
    requires NoLostWakeUp(s) && Enabled(s, a) && !a.Create? && d in Step(s, a).parked && e in Step(s, a).parked
    requires d.k == e.k
    ensures d == e
  {
    if ParksOn(s, a, d.k) {
      assert d in s.parked ==> Finds(s, d.k, d.at);
      assert e in s.parked ==> Finds(s, e.k, e.at);
    }
  }

  /** Taking a slot into use. */
  lemma CreateExact(s: State, a: Action)
    requires Marks(s) && NoLostWakeUp(s) && Enabled(s, a) && a.Create?
    ensures NoLostWakeUp(Step(s, a)) <==> !Loses(s, a)
  {
    var s' := Step(s, a);
    if Loses(s, a) {
      var k := s.item[a.i].key;
      var at :| Entry(k, at) in s.parked &&
                (at == a.i || forall t :: t in s.pc && WillWake(s, s.pc[t], k) ==> Through(s.pc[t], a.i));
      if at != a.i {
        NobodyLeft(s, a, k);
      }
      assert Entry(k, at) in s'.parked;
    } else {
      forall e | e in s'.parked ensures s'.parked[e] != [] && HasKey(s', e.at, e.k) && Attended(s', e.k) {
        CreateKeeps(s, a, e);
      }
    }
  }

  lemma NobodyLeft(s: State, a: Action, k: Key)
    requires Marks(s) && Enabled(s, a) && a.Create? && HasKey(s, a.i, k) && k != a.k
    requires forall t :: t in s.pc && WillWake(s, s.pc[t], k) ==> Through(s.pc[t], a.i)
    ensures !Attended(Step(s, a), k)
  {
    var s' := Step(s, a);
    forall t | t in s'.pc ensures !WillWake(s', s'.pc[t], k) {
      assert PcOk(s, s.pc[t]);
    }
  }

  lemma CreateKeeps(s: State, a: Action, e: Entry)
    requires Marks(s) && NoLostWakeUp(s) && Enabled(s, a) && a.Create? && !Loses(s, a) && e in s.parked
    ensures HasKey(Step(s, a), e.at, e.k) && Attended(Step(s, a), e.k)
  {
    var s' := Step(s, a);
    assert Entry(e.k, e.at) == e;
    if a.i in s.item && s.item[a.i].key == e.k && a.k != e.k {
      assert e.at != a.i;
      var t :| t in s.pc && WillWake(s, s.pc[t], e.k) && !Through(s.pc[t], a.i);
      assert WillWake(s', s'.pc[t], e.k);
    } else {
      var t :| t in s.pc && WillWake(s, s.pc[t], e.k);
      assert WillWake(s', s'.pc[t], e.k);
    }
  }

  /** A step keeps every parked context found and attended if and only if it is none that loses one. */
  lemma WakeUpsExact(s: State, a: Action)
    requires Marks(s) && NoLostWakeUp(s) && Enabled(s, a)
    ensures NoLostWakeUp(Step(s, a)) <==> !Loses(s, a)
  {
    if a.Create? {
      CreateExact(s, a);
    } else {
      AttendedKept(s, a);
    }
  }

  // ---------- contexts ----------

  /** Steps that touch no list leave the contexts as they are. */
  lemma ListsUntouched(s: State, s': State)
    requires Contexts(s) && s'.sets == s.sets && (forall p :: Waiters(s', p) == Waiters(s, p))
    ensures Contexts(s')
  {
    forall w | w in s'.sets ensures Somewhere(s', w) || s'.sets[w] == 1 {
      if Somewhere(s, w) {
        var p :| w in Waiters(s, p);
        assert w in Waiters(s', p);
      }
    }
  }

  lemma ListGrows(s: State, s': State, here: Place, w: Waiter)
    requires Contexts(s) && w !in s.sets && s'.sets == s.sets[w := 0]
    requires Waiters(s', here) == Waiters(s, here) + [w]
    requires forall p :: p != here ==> Waiters(s', p) == Waiters(s, p)
    ensures Contexts(s')
  {
    hide Waiters;
    assert forall p :: w !in Waiters(s, p);
    forall x | x in s'.sets ensures Somewhere(s', x) || s'.sets[x] == 1 {
      if x == w {
        assert x in Waiters(s', here);
      } else if Somewhere(s, x) {
        var p :| x in Waiters(s, p);
        assert x in Waiters(s', p);
      }
    }
  }

  lemma ParkKeepsContexts(s: State, a: Action)
    requires Contexts(s) && Enabled(s, a) && a.Park? && IsMoving(s, s.pc[a.t].i)
    ensures Contexts(Step(s, a))
  {
    hide Contexts;
    var s' := Step(s, a);
    var here := Under(Entry(s.item[s.pc[a.t].i].key, a.at));
    forall p | p != here ensures Waiters(s', p) == Waiters(s, p) {
    }
    ListGrows(s, s', here, a.w);
  }

  lemma ListMoves(s: State, s': State, from: Place, to: Place)
    requires Contexts(s) && s'.sets == s.sets && from != to
    requires Waiters(s', to) == Waiters(s, from) && Waiters(s', from) == [] && Waiters(s, to) == []
    requires forall p :: p != from && p != to ==> Waiters(s', p) == Waiters(s, p)
    ensures Contexts(s')
  {
    hide Waiters;
    forall w | w in s'.sets ensures Somewhere(s', w) || s'.sets[w] == 1 {
      if Somewhere(s, w) {
        var p :| w in Waiters(s, p);
        assert w in Waiters(s', if p == from then to else p);
      }
    }
  }

  lemma WakeKeepsContexts(s: State, a: Action)
    requires Contexts(s) && Enabled(s, a) && a.Wake? && HasKey(s, a.at, s.item[s.pc[a.t].i].key)
    ensures Contexts(Step(s, a))
  {
    hide Contexts;
    var s' := Step(s, a);
    var from, to := Under(Entry(s.item[s.pc[a.t].i].key, a.at)), WithThread(a.t);
    forall p | p != from && p != to ensures Waiters(s', p) == Waiters(s, p) {
    }
    ListMoves(s, s', from, to);
  }

  lemma FirstOnce(ws: seq<Waiter>)
    requires Distinct(ws) && ws != []
    ensures ws[0] in ws && ws[0] !in ws[1..] && Distinct(ws[1..])
    ensures (forall w :: w in ws <==> w == ws[0] || w in ws[1..])
  {
    assert forall j :: 0 <= j < |ws[1..]| ==> ws[1..][j] == ws[j + 1];
    assert ws == [ws[0]] + ws[1..];
  }

  lemma ListShrinks(s: State, s': State, here: Place, w: Waiter)
    requires Contexts(s) && Waiters(s, here) != [] && w == Waiters(s, here)[0]
    requires w in s.sets && s'.sets == s.sets[w := s.sets[w] + 1]
    requires Waiters(s', here) == Waiters(s, here)[1..]
    requires forall p :: p != here ==> Waiters(s', p) == Waiters(s, p)
    ensures Contexts(s')
  {
    FirstOnce(Waiters(s, here));
    hide Waiters, Distinct;
    forall p ensures w !in Waiters(s', p) {
    }
    forall p, x | x in Waiters(s', p) ensures x in Waiters(s, p) {
    }
    forall x | x in s'.sets ensures Somewhere(s', x) || s'.sets[x] == 1 {
      if x != w && Somewhere(s, x) {
        var p :| x in Waiters(s, p);
        assert x in Waiters(s', p);
      }
    }
  }

  lemma SetKeepsContexts(s: State, a: Action)
    requires Contexts(s) && Enabled(s, a) && a.SetNext? && s.pc[a.t].ws != []
    ensures Contexts(Step(s, a))
  {
    hide Contexts;
    var s' := Step(s, a);
    var here := WithThread(a.t);
    forall p | p != here ensures Waiters(s', p) == Waiters(s, p) {
    }
    ListShrinks(s, s', here, s.pc[a.t].ws[0]);
  }

  lemma ContextsKept(s: State, a: Action)
    requires Contexts(s) && Enabled(s, a)
    ensures Contexts(Step(s, a))
  {
    hide Contexts;
    if a.Park? && IsMoving(s, s.pc[a.t].i) {
      ParkKeepsContexts(s, a);
    } else if a.Wake? && HasKey(s, a.at, s.item[s.pc[a.t].i].key) {
      WakeKeepsContexts(s, a);
    } else if a.SetNext? && s.pc[a.t].ws != [] {
      SetKeepsContexts(s, a);
    } else {
      ListsUntouched(s, Step(s, a));
    }
  }

  lemma InvKept(s: State, a: Action)
    requires Inv(s) && Enabled(s, a)
    ensures Inv(Step(s, a))
  {
    hide Marks, Contexts, Enabled, Step;
    MarksKept(s, a);
    ContextsKept(s, a);
  }

  lemma {:induction false} RunKeeps(s: State, acts: seq<Action>)
    requires Inv(s) && Runs(s, acts)
    ensures Inv(Exec(s, acts))
    decreases |acts|
  {
    if acts != [] {
      InvKept(s, acts[0]);
      hide Inv, Enabled, Step;
      RunKeeps(Step(s, acts[0]), acts[1..]);
    }
  }

  lemma InitInv(threads: set<ThreadId>)
    ensures Inv(Init(threads)) && NoLostWakeUp(Init(threads))
  {
    var s := Init(threads);
    assert forall p :: Waiters(s, p) == [];
  }

  // ---------- what every interleaving guarantees ----------

  /** In every state of the run. */
  ghost predicate NeverLost(s: State, acts: seq<Action>)
    requires Runs(s, acts)
    decreases |acts|
  {
    NoLostWakeUp(s) && (acts == [] || NeverLost(Step(s, acts[0]), acts[1..]))
  }

  /** No slot is used again at the wrong moment. */
  ghost predicate Clean(s: State, acts: seq<Action>)
    requires Runs(s, acts)
    decreases |acts|
  {
    acts == [] || (!Loses(s, acts[0]) && Clean(Step(s, acts[0]), acts[1..]))
  }

  lemma {:induction false} RunExact(s: State, acts: seq<Action>)
    requires Inv(s) && NoLostWakeUp(s) && Runs(s, acts)
    ensures NeverLost(s, acts) <==> Clean(s, acts)
    ensures Clean(s, acts) ==> NoLostWakeUp(Exec(s, acts))
    decreases |acts|
  {
    if acts != [] {
      var a, s1 := acts[0], Step(s, acts[0]);
      WakeUpsExact(s, a);
      InvKept(s, a);
      hide Marks, Contexts, NoLostWakeUp, Loses, Enabled, Step;
      if !Loses(s, a) {
        RunExact(s1, acts[1..]);
      } else {
        LostNow(s1, acts[1..]);
      }
    }
  }

  lemma LostNow(s: State, acts: seq<Action>)
    requires Runs(s, acts) && !NoLostWakeUp(s)
    ensures !NeverLost(s, acts)
  {
  }

  /** Whatever the interleaving, no wake-up is ever lost if and only if no slot is used again under
      another key while contexts parked under its old one depend on it. */
  lemma WakeUpsLostExactly(threads: set<ThreadId>, acts: seq<Action>)
    requires Runs(Init(threads), acts)
    ensures NeverLost(Init(threads), acts) <==> Clean(Init(threads), acts)
  {
    InitInv(threads);
    RunExact(Init(threads), acts);
  }

  lemma SetOnce(s: State, w: Waiter)
    requires Contexts(s) && w in s.sets
    ensures s.sets[w] <= 1
  {
    if Somewhere(s, w) {
      var p :| w in Waiters(s, p);
    }
  }

  /** After every such run a key with parked waiters has a release thread that is not itself waiting
      and has yet to wake that key; and after any run no context was set twice. */
  lemma WaitersAttended(threads: set<ThreadId>, acts: seq<Action>)
    requires Runs(Init(threads), acts)
    ensures var s := Exec(Init(threads), acts);
            && (Clean(Init(threads), acts) ==> forall e :: e in s.parked ==> Finds(s, e.k, e.at) && Attended(s, e.k))
            && (forall w :: w in s.sets ==> s.sets[w] <= 1)
  {
    InitInv(threads);
    RunExact(Init(threads), acts);
    RunKeeps(Init(threads), acts);
    var s := Exec(Init(threads), acts);
    forall w | w in s.sets ensures s.sets[w] <= 1 {
      SetOnce(s, w);
    }
    if Clean(Init(threads), acts) {
      forall e | e in s.parked ensures Finds(s, e.k, e.at) && Attended(s, e.k) {
        assert Entry(e.k, e.at) == e;
      }
    }
  }

  /** Every thread has nothing left to do, or waits for its own context. */
  ghost predicate AllStopped(s: State) {
    forall t :: t in s.pc ==> s.pc[t].Idle? || s.pc[t].Blocked?
  }

  lemma StoppedWoken(s: State)
    requires Inv(s) && NoLostWakeUp(s) && AllStopped(s)
    ensures s.parked == map[] && (forall w :: w in s.sets ==> s.sets[w] == 1)
    ensures forall t :: t in s.pc && s.pc[t].Blocked? ==> Enabled(s, Resume(t))
  {
    forall e ensures e !in s.parked {
      assert !Attended(s, e.k);
    }
    assert s.parked == map[];
    forall p ensures Waiters(s, p) == [] {
    }
    forall t | t in s.pc && s.pc[t].Blocked? ensures Enabled(s, Resume(t)) {
      assert PcOk(s, s.pc[t]);
    }
  }

  /** Once nobody but blocked threads is left, the move map is empty and every context was set
      exactly once, so the blocked threads can all go on: nobody waits forever. */
  lemma AllWoken(threads: set<ThreadId>, acts: seq<Action>)
    requires Runs(Init(threads), acts) && Clean(Init(threads), acts) && AllStopped(Exec(Init(threads), acts))
    ensures var s := Exec(Init(threads), acts);
            && s.parked == map[]
            && (forall w :: w in s.sets ==> s.sets[w] == 1)
            && (forall t :: t in s.pc && s.pc[t].Blocked? ==> Enabled(s, Resume(t)))
  {
    InitInv(threads);
    RunExact(Init(threads), acts);
    RunKeeps(Init(threads), acts);
    StoppedWoken(Exec(Init(threads), acts));
  }

  lemma ListedKnown(s: State, p: Place, w: Waiter)
    requires Contexts(s) && w in Waiters(s, p)
    ensures w in s.sets
  {
  }

  lemma EntryFor(s: State, k: Key, own: Item) returns (at: Item)
    ensures Finds(s, k, at) || (FindsNone(s, k) && at == own)
  {
    if e :| Finds(s, k, e) {
      at := e;
    } else {
      at := own;
    }
  }

  /** A thread inside an operation can always take its next step, unless it waits for its own
      context. */
  lemma NextStep(s: State, t: ThreadId, spare: Waiter) returns (a: Action)
    requires Inv(s) && t in s.pc && !s.pc[t].Idle? && !s.pc[t].Blocked? && spare !in s.sets
    ensures Enabled(s, a) && ByThread(a) && Quiet(a)
  {
    assert PcOk(s, s.pc[t]);
    match s.pc[t]
    case Acquiring(_, _) => a := Reference(t);
    case SawMoving(i, _) =>
      var at := EntryFor(s, s.item[i].key, i);
      a := Park(t, spare, at);
    case Marked(_) => a := Moved(t);
    case Looking(_) => a := Miss(t);
    case Ready(i, _) =>
      var at := EntryFor(s, s.item[i].key, i);
      a := Wake(t, at);
    case Waking(ws) =>
      if ws != [] {
        ListedKnown(s, WithThread(t), ws[0]);
      }
      a := SetNext(t);
  }

  // ---------- progress ----------

  /** Nobody starts a read or marks an item; what is under way goes on. */
  predicate Quiet(a: Action) {
    !a.Read? && !a.Mark?
  }

  /** How many steps a thread is from its end, at most. */
  function Rank(s: State, p: Pc): (r: nat)
    ensures r <= 8
  {
    match p
    case Idle => 0
    case Waking(_) => 1
    case Ready(_, _) => 2
    case Blocked(_, _) => 3
    case Acquiring(i, _) => if IsMoving(s, i) then 6 else 3
    case SawMoving(i, _) => if IsMoving(s, i) then 5 else 4
    case Looking(_) => 7
    case Marked(_) => 8
  }

  function Tokens(s: State): set<(ThreadId, nat)> {
    set t, j | t in s.pc && 0 <= j < 8 && j < Rank(s, s.pc[t]) :: (t, j)
  }

  function Unset(sets: map<Waiter, nat>): set<Waiter> {
    set w | w in sets && sets[w] == 0
  }

  /** What is left to do: the steps of all threads, and the contexts to set. */
  function Work(s: State): nat {
    |Tokens(s)| + |Unset(s.sets)|
  }

  lemma OthersNoWorse(s: State, a: Action, u: ThreadId)
    requires Enabled(s, a) && Quiet(a) && u in s.pc && (ByThread(a) ==> a.t != u)
    ensures u in Step(s, a).pc && Rank(Step(s, a), Step(s, a).pc[u]) <= Rank(s, s.pc[u])
  {
    assert forall i :: IsMoving(Step(s, a), i) ==> IsMoving(s, i);
  }

  /** Whether the step parks a context, and whether it sets one. */
  predicate Parks(s: State, a: Action) {
    a.Park? && a.t in s.pc && s.pc[a.t].SawMoving? && IsMoving(s, s.pc[a.t].i)
  }

  predicate Sets(s: State, a: Action) {
    a.SetNext? && a.t in s.pc && s.pc[a.t].Waking? && s.pc[a.t].ws != []
  }

  function Paid(s: State, a: Action): nat {
    if Parks(s, a) then 2 else if Sets(s, a) || !ByThread(a) then 0 else 1
  }

  lemma ActorBetter(s: State, a: Action)
    requires Enabled(s, a) && Quiet(a) && ByThread(a)
    ensures a.t in s.pc && a.t in Step(s, a).pc
    ensures Rank(Step(s, a), Step(s, a).pc[a.t]) + Paid(s, a) <= Rank(s, s.pc[a.t])
  {
  }

  lemma TokensSpent(s: State, s': State, t: ThreadId, d: nat)
    requires s'.pc.Keys == s.pc.Keys && t in s.pc && d <= 2
    requires forall u :: u in s.pc ==> Rank(s', s'.pc[u]) <= Rank(s, s.pc[u])
    requires Rank(s', s'.pc[t]) + d <= Rank(s, s.pc[t])
    ensures |Tokens(s')| + d <= |Tokens(s)|
  {
    hide Rank;
    var r := Rank(s', s'.pc[t]);
    var spent := if d == 0 then {} else if d == 1 then {(t, r)} else {(t, r), (t, r + 1)};
    assert |spent| == d && spent !! Tokens(s');
    assert spent + Tokens(s') <= Tokens(s);
    SubsetSize(spent + Tokens(s'), Tokens(s));
  }

  lemma QuietTokens(s: State, a: Action)
    requires Enabled(s, a) && Quiet(a)
    ensures |Tokens(Step(s, a))| + Paid(s, a) <= |Tokens(s)|
  {
    hide Rank, Tokens, IsMoving, Paid;
    var s' := Step(s, a);
    forall u | u in s.pc ensures u in s'.pc && Rank(s', s'.pc[u]) <= Rank(s, s.pc[u]) {
      if ByThread(a) && a.t == u {
        ActorBetter(s, a);
      } else {
        OthersNoWorse(s, a, u);
      }
    }
    SameThreads(s, a);
    if ByThread(a) {
      ActorBetter(s, a);
      PaidAtMost(s, a);
      TokensSpent(s, s', a.t, Paid(s, a));
    } else {
      PaidAtMost(s, a);
      NoThreadMoves(s, a);
    }
  }

  lemma SameThreads(s: State, a: Action)
    requires Enabled(s, a)
    ensures Step(s, a).pc.Keys == s.pc.Keys
  {
  }

  lemma PaidAtMost(s: State, a: Action)
    ensures Paid(s, a) <= 2 && (!ByThread(a) ==> Paid(s, a) == 0)
  {
  }

  lemma NoThreadMoves(s: State, a: Action)
    requires Enabled(s, a) && !ByThread(a)
    ensures |Tokens(Step(s, a))| <= |Tokens(s)|
  {
    var s' := Step(s, a);
    assert forall i :: IsMoving(s', i) ==> IsMoving(s, i);
    assert Tokens(s') <= Tokens(s);
    SubsetSize(Tokens(s'), Tokens(s));
  }

  lemma ListedUnset(s: State, t: ThreadId)
    requires Contexts(s) && t in s.pc && s.pc[t].Waking? && s.pc[t].ws != []
    ensures s.pc[t].ws[0] in s.sets && s.sets[s.pc[t].ws[0]] == 0
  {
    var w := s.pc[t].ws[0];
    assert w in Waiters(s, WithThread(t));
  }

  lemma StepSets(s: State, a: Action)
    requires Enabled(s, a)
    ensures if Parks(s, a) then a.w !in s.sets && Step(s, a).sets == s.sets[a.w := 0]
            else if Sets(s, a) then s.pc[a.t].ws[0] in s.sets
              && Step(s, a).sets == s.sets[s.pc[a.t].ws[0] := s.sets[s.pc[a.t].ws[0]] + 1]
            else Step(s, a).sets == s.sets
  {
  }

  lemma UnsetMore(sets: map<Waiter, nat>, w: Waiter)
    requires w !in sets
    ensures |Unset(sets[w := 0])| == |Unset(sets)| + 1
  {
    assert Unset(sets[w := 0]) == Unset(sets) + {w};
  }

  lemma UnsetLess(sets: map<Waiter, nat>, w: Waiter)
    requires w in sets && sets[w] == 0
    ensures |Unset(sets[w := 1])| == |Unset(sets)| - 1
  {
    assert Unset(sets[w := 1]) == Unset(sets) - {w};
  }

  lemma QuietUnset(s: State, a: Action)
    requires Contexts(s) && Enabled(s, a)
    ensures |Unset(Step(s, a).sets)| == |Unset(s.sets)| + (if Parks(s, a) then 1 else 0) - (if Sets(s, a) then 1 else 0)
  {
    hide Contexts, Enabled, Step, Unset;
    StepSets(s, a);
    if Parks(s, a) {
      UnsetMore(s.sets, a.w);
    } else if Sets(s, a) {
      ListedUnset(s, a.t);
      UnsetLess(s.sets, s.pc[a.t].ws[0]);
    }
  }

  /** Every quiet step of a thread leaves less to do. */
  lemma QuietStep(s: State, a: Action)
    requires Inv(s) && Enabled(s, a) && Quiet(a)
    ensures Work(Step(s, a)) + (if ByThread(a) then 1 else 0) <= Work(s)
  {
    hide Tokens, Unset, Inv, Contexts, IsMoving;
    InvContexts(s);
    QuietTokens(s, a);
    QuietUnset(s, a);
  }

  lemma InvContexts(s: State)
    requires Inv(s)
    ensures Contexts(s)
  {
  }

  function StepsIn(acts: seq<Action>): nat {
    if acts == [] then 0 else (if ByThread(acts[0]) then 1 else 0) + StepsIn(acts[1..])
  }

  /** Once reads and marks stop, the threads together take at most so many steps, in any order. */
  lemma {:induction false} QuietRunsEnd(s: State, acts: seq<Action>)
    requires Inv(s) && Runs(s, acts) && (forall i :: 0 <= i < |acts| ==> Quiet(acts[i]))
    ensures StepsIn(acts) + Work(Exec(s, acts)) <= Work(s)
    decreases |acts|
  {
    if acts != [] {
      QuietStep(s, acts[0]);
      RunKeeps(s, [acts[0]]);
      assert Exec(s, [acts[0]]) == Step(s, acts[0]) by { assert [acts[0]][1..] == []; }
      hide Inv, Work, ByThread, Quiet;
      QuietRunsEnd(Step(s, acts[0]), acts[1..]);
    }
  }

  /** Nobody has anything left to do, and nobody is waited for. */
  ghost predicate Done(s: State) {
    (forall t :: t in s.pc ==> s.pc[t].Idle?) && s.parked == map[] && (forall w :: w in s.sets ==> s.sets[w] == 1)
  }

  /** Short of that, some thread can take a step. */
  lemma DoneOrStep(s: State) returns (a: Action)
    requires Inv(s) && NoLostWakeUp(s)
    ensures Done(s) || (Enabled(s, a) && ByThread(a) && Quiet(a))
  {
    hide Inv, Enabled;
    a := Miss(0);
    if t :| t in s.pc && !s.pc[t].Idle? && !s.pc[t].Blocked? {
      var spare := Spare(s.sets.Keys);
      a := NextStep(s, t, spare);
    } else {
      StoppedWoken(s);
      if t :| t in s.pc && s.pc[t].Blocked? {
        a := Resume(t);
      }
    }
  }

  /** A quiet continuation of any run, in whatever order the threads are scheduled, takes at most so
      many of their steps. And where no thread can take one, all is done, unless a wake-up was lost:
      nobody is blocked, nobody is parked, and every context was set exactly once. */
  lemma EveryRunFinishes(threads: set<ThreadId>, acts: seq<Action>, more: seq<Action>)
    requires Runs(Init(threads), acts)
    requires Runs(Exec(Init(threads), acts), more) && (forall i :: 0 <= i < |more| ==> Quiet(more[i]))
    ensures var s, s' := Exec(Init(threads), acts), Exec(Exec(Init(threads), acts), more);
            && StepsIn(more) <= Work(s) - Work(s')
            && (Clean(Init(threads), acts) && Clean(s, more) ==>
                  ((forall a :: Enabled(s', a) ==> !ByThread(a) || !Quiet(a)) <==> Done(s')))
  {
    hide Work, Enabled, Inv, Step, NoLostWakeUp;
    InitInv(threads);
    RunKeeps(Init(threads), acts);
    RunExact(Init(threads), acts);
    var s := Exec(Init(threads), acts);
    QuietRunsEnd(s, more);
    RunKeeps(s, more);
    var s' := Exec(s, more);
    if Clean(Init(threads), acts) && Clean(s, more) {
      RunExact(s, more);
      var a := DoneOrStep(s');
      if Done(s') {
        forall a | Enabled(s', a) ensures !ByThread(a) || !Quiet(a) {
          DoneStays(s', a);
        }
      }
    }
  }

  lemma DoneStays(s: State, a: Action)
    requires Done(s) && Enabled(s, a)
    ensures !ByThread(a) || !Quiet(a)
  {
  }

  // ---------- setting the waiters of one key ----------

  /** Reference counts have 18 bits. */
  const MAX_REFS := 0x3_FFFF

  /** How many clones of a handle succeed before the first one that finds its item's count at the
      maximum. `change[j]` is what other threads add to the count before clone `j`. */
  function Cloned(refs: int, change: seq<int>): (n: nat)
    ensures n <= |change|
    decreases |change|
  {
    if change == [] || refs + change[0] >= MAX_REFS then 0 else 1 + Cloned(refs + change[0] + 1, change[1..])
  }

  /** The waiters that are set when clone number `n` is the first to overflow. */
  function Notified(ws: seq<Waiter>, n: nat): seq<Waiter> {
    if n >= |ws| then ws else ws[..n] + ws[n + 1..]
  }

  /** The loop that sets the waiters taken from the move map, in order. Each gets a clone of the
      handle; the one whose clone overflows is never set, and the later ones get an empty handle.
      `refs` is the count of the item, or none when the handle itself is empty. */
  method NotifyAll(ws: seq<Waiter>, refs: Option<nat>, change: seq<int>)
    returns (notified: seq<Waiter>, withHandle: nat)
    requires |change| == |ws|
    ensures refs.None? ==> notified == ws && withHandle == 0
    ensures refs.Some? ==> withHandle == Cloned(refs.value, change) && notified == Notified(ws, withHandle)
  {
    hide Cloned;
    notified, withHandle := [], 0;
    var overflowed, count := false, if refs.Some? then refs.value else 0;
    for n := 0 to |ws|
      invariant refs.None? ==> notified == ws[..n] && withHandle == 0 && !overflowed
      invariant refs.Some? ==> withHandle <= n && (overflowed <==> withHandle < n)
      invariant refs.Some? ==> notified == Notified(ws[..n], withHandle)
      invariant refs.Some? ==>
                Cloned(refs.value, change) == withHandle + if overflowed then 0 else Cloned(count, change[n..])
    {
      CloneNext(count, change, n);
      NotifyNext(ws, n, withHandle);
      if overflowed || refs.None? {
        notified := notified + [ws[n]];
      } else if count + change[n] >= MAX_REFS {
        overflowed := true;
      } else {
        notified := notified + [ws[n]];
        count, withHandle := count + change[n] + 1, withHandle + 1;
      }
    }
    CloneNone(count, change[|ws|..]);
    assert ws[..|ws|] == ws;
  }

  lemma CloneNext(refs: int, change: seq<int>, n: nat)
    requires n < |change|
    ensures Cloned(refs, change[n..]) ==
            if refs + change[n] >= MAX_REFS then 0 else 1 + Cloned(refs + change[n] + 1, change[n + 1..])
  {
    assert change[n..][1..] == change[n + 1..];
  }

  lemma CloneNone(refs: int, change: seq<int>)
    requires change == []
    ensures Cloned(refs, change) == 0
  {
  }

  lemma NotifyNext(ws: seq<Waiter>, n: nat, k: nat)
    requires n < |ws| && k <= n
    ensures k < n ==> Notified(ws[..n + 1], k) == Notified(ws[..n], k) + [ws[n]]
    ensures k == n ==> Notified(ws[..n + 1], k) == Notified(ws[..n], k) == ws[..n]
    ensures Notified(ws[..n + 1], n + 1) == ws[..n] + [ws[n]]
  {
    assert ws[..n + 1] == ws[..n] + [ws[n]];
  }

  /** Room for one clone per waiter is enough while others only drop references, and needed while
      they only take some. */
  lemma {:induction false} RoomForClones(refs: int, change: seq<int>)
    ensures (forall j :: 0 <= j < |change| ==> change[j] <= 0) && refs + |change| <= MAX_REFS ==>
            Cloned(refs, change) == |change|
    ensures (forall j :: 0 <= j < |change| ==> change[j] >= 0) && refs + |change| > MAX_REFS && change != [] ==>
            Cloned(refs, change) < |change|
    decreases |change|
  {
    if change != [] {
      var rest := change[1..];
      assert forall j :: 0 <= j < |rest| ==> rest[j] == change[j + 1];
      RoomForClones(refs + change[0] + 1, rest);
    }
  }

  lemma LeftOut(ws: seq<Waiter>, n: nat)
    requires Distinct(ws)
    ensures (forall w :: w in ws ==> w in Notified(ws, n)) <==> n >= |ws|
  {
    if n < |ws| {
      var left := Notified(ws, n);
      assert forall j {:trigger left[j]} :: 0 <= j < |left| ==> left[j] == ws[if j < n then j else j + 1];
      var w := ws[n];
      assert w in ws && w !in left;
    }
  }

  /** When nobody else changes the count, all waiters are set if and only if it leaves room for a
      clone for each. */
  lemma AllNotified(ws: seq<Waiter>, refs: nat, change: seq<int>)
    requires Distinct(ws) && |change| == |ws| && (forall j :: 0 <= j < |change| ==> change[j] == 0)
    ensures (forall w :: w in ws ==> w in Notified(ws, Cloned(refs, change))) <==> ws == [] || refs + |ws| <= MAX_REFS
  {
    RoomForClones(refs, change);
    LeftOut(ws, Cloned(refs, change));
  }

  /** At the maximum the first waiter is the one that is never set. */
  lemma FullCount(first: Waiter, second: Waiter)
    requires first != second
    ensures Notified([first, second], Cloned(MAX_REFS, [0, 0])) == [second]
  {
    assert [first, second][1..] == [second];
  }
}
