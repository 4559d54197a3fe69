/** Counting handles per thread: each thread counts the references it takes and gives back, and the
    wait contexts that carry a handle from one thread to another correct both sides. The steps
    are single updates of an item's reference count, of a thread's counter, or of a context. */
module HandleAccounting {
  import opened Basics

  /** Who owns a reference: a handle that is counted, a resolved wait context, or a handle given to
      a ready callback whose receiver has not adjusted its counter yet. */
  datatype Ref = Counted | Parked | Callback | Dropped

  datatype Context = Unset(callback: bool) | Resolved(item: Option<nat>, callback: bool) | Gone

  /** What a thread is in the middle of. */
  datatype Pc =
    | Idle
      // counter changes still to be made
    | Owes(change: int)
      // inside set(), the item stored and the setter's counter not yet lowered
    | Stored(c: nat)
      // inside set(), about to look for a callback
    | Notifying(c: nat)
      // a reference for the callback is taken; its counting and the correction are to come
    | Cloned
    | CloneCounted

  datatype State = State(count: seq<int>, pc: seq<Pc>, refs: seq<Ref>, contexts: seq<Context>)

  datatype Action =
    | Acquire(t: nat)
    | Drop(t: nat, r: nat)
    | Settle(t: nat)
    | NewContext(t: nat)
    | OnReady(t: nat, c: nat)
    | SetItem(t: nat, c: nat, r: nat)
    | SetNull(t: nat, c: nat)
    | Lower(t: nat)
    | CloneForCallback(t: nat)
    | SkipCallback(t: nat)
    | CountClone(t: nat)
    | CorrectClone(t: nat)
    | DestroyContext(t: nat, c: nat)
    | ReleaseContext(t: nat, c: nat)
    | AdjustCallback(t: nat, r: nat)

  /** Counter changes a thread has still to make. */
  function Owed(p: Pc): int {
    match p
    case Owes(d) => d
    case Stored(_) => -1
    case CloneCounted => -1
    case _ => 0
  }

  predicate ResolvedWith(s: State, c: int) {
    0 <= c < |s.contexts| && s.contexts[c].Resolved? && s.contexts[c].item.Some?
  }

  predicate Enabled(s: State, a: Action) {
    && a.t < |s.pc| && a.t < |s.count|
    && match a {
         case Acquire(t) => s.pc[t] == Idle
         case Drop(t, r) => s.pc[t] == Idle && r < |s.refs| && s.refs[r] == Counted
         case Settle(t) => s.pc[t].Owes?
         case NewContext(t) => s.pc[t] == Idle
         case OnReady(t, c) => s.pc[t] == Idle && c < |s.contexts|
         case SetItem(t, c, r) => s.pc[t] == Idle && c < |s.contexts| && s.contexts[c].Unset? && r < |s.refs|
           && s.refs[r] == Counted
         case SetNull(t, c) => s.pc[t] == Idle && c < |s.contexts| && s.contexts[c].Unset?
         case Lower(t) => s.pc[t].Stored?
         case CloneForCallback(t) => s.pc[t].Notifying?
         case SkipCallback(t) => s.pc[t].Notifying?
         case CountClone(t) => s.pc[t] == Cloned
         case CorrectClone(t) => s.pc[t] == CloneCounted
         case DestroyContext(t, c) => s.pc[t] == Idle && c < |s.contexts| && s.contexts[c].Resolved?
         case ReleaseContext(t, c) => s.pc[t] == Idle && c < |s.contexts| && s.contexts[c].Resolved?
         case AdjustCallback(t, r) => s.pc[t] == Idle && r < |s.refs| && s.refs[r] == Callback
       }
  }

  function Goto(s: State, t: nat, p: Pc): State
    requires t < |s.pc|
  {
    s.(pc := s.pc[t := p])
  }

  function Bump(s: State, t: nat, d: int): State
    requires t < |s.count|
  {
    s.(count := s.count[t := s.count[t] + d])
  }

  function SetRef(s: State, r: nat, k: Ref): State {
    if r < |s.refs| then s.(refs := s.refs[r := k]) else s
  }

  function SetContext(s: State, c: nat, x: Context): State
    requires c < |s.contexts|
  {
    s.(contexts := s.contexts[c := x])
  }

  function Step(s: State, a: Action): State
    requires Enabled(s, a)
  {
    match a
    case Acquire(t) => Goto(s.(refs := s.refs + [Counted]), t, Owes(1))
    case Drop(t, r) => Goto(SetRef(s, r, Dropped), t, Owes(-1))
    case Settle(t) => Goto(Bump(s, t, s.pc[t].change), t, Idle)
    case NewContext(t) => s.(contexts := s.contexts + [Unset(false)])
    case OnReady(t, c) => if s.contexts[c].Unset? then SetContext(s, c, Unset(true)) else s
    case SetItem(t, c, r) =>
      Goto(SetContext(SetRef(s, r, Parked), c, Resolved(Some(r), s.contexts[c].callback)), t, Stored(c))
    case SetNull(t, c) => Goto(SetContext(s, c, Resolved(None, s.contexts[c].callback)), t, Notifying(c))
    case Lower(t) => Goto(Bump(s, t, -1), t, Notifying(s.pc[t].c))
    case CloneForCallback(t) =>
      // only a handle that can be cloned is given away
      var c := s.pc[t].c;
      if ResolvedWith(s, c) && s.contexts[c].callback then Goto(s.(refs := s.refs + [Callback]), t, Cloned)
      else Goto(s, t, Idle)
    case SkipCallback(t) => Goto(s, t, Idle)
    case CountClone(t) => Goto(Bump(s, t, 1), t, CloneCounted)
    case CorrectClone(t) => Goto(Bump(s, t, -1), t, Idle)
    case DestroyContext(t, c) =>
      // the counter is raised first; releasing the item lowers it again
      if ResolvedWith(s, c) then Goto(Bump(SetContext(SetRef(s, s.contexts[c].item.value, Dropped), c, Gone), t, 1), t,
        Owes(-1))
      else SetContext(s, c, Gone)
    case ReleaseContext(t, c) =>
      // the item goes to the caller, who owns it like a handle
      if ResolvedWith(s, c)
      then Goto(SetContext(SetRef(s, s.contexts[c].item.value, Counted), c, Resolved(None, s.contexts[c].callback)), t,
        Owes(1))
      else s
    case AdjustCallback(t, r) => Bump(SetRef(s, r, Counted), t, 1)
  }

  // ---------- sums ----------

  function Sum(xs: seq<int>): int {
    if xs == [] then 0 else xs[0] + Sum(xs[1..])
  }

  function AllOwed(pcs: seq<Pc>): int {
    if pcs == [] then 0 else Owed(pcs[0]) + AllOwed(pcs[1..])
  }

  /** How many references are owned in the given way. */
  function Number(refs: seq<Ref>, k: Ref): nat {
    if refs == [] then 0 else (if refs[0] == k then 1 else 0) + Number(refs[1..], k)
  }

  lemma {:induction false} SumUpdate(xs: seq<int>, i: nat, v: int)
    requires i < |xs|
    ensures Sum(xs[i := v]) == Sum(xs) - xs[i] + v
  {
    if i == 0 {
      assert xs[i := v][1..] == xs[1..];
    } else {
      SumUpdate(xs[1..], i - 1, v);
      assert xs[i := v][1..] == xs[1..][i - 1 := v];
    }
  }

  lemma {:induction false} OwedUpdate(pcs: seq<Pc>, i: nat, p: Pc)
    requires i < |pcs|
    ensures AllOwed(pcs[i := p]) == AllOwed(pcs) - Owed(pcs[i]) + Owed(p)
  {
    if i == 0 {
      assert pcs[i := p][1..] == pcs[1..];
    } else {
      OwedUpdate(pcs[1..], i - 1, p);
      assert pcs[i := p][1..] == pcs[1..][i - 1 := p];
    }
  }

  lemma {:induction false} NumberUpdate(refs: seq<Ref>, i: nat, k: Ref, of: Ref)
    requires i < |refs|
    ensures Number(refs[i := k], of) == Number(refs, of) - (if refs[i] == of then 1 else 0) + (if k == of then 1 else 0)
  {
    if i == 0 {
      assert refs[i := k][1..] == refs[1..];
    } else {
      NumberUpdate(refs[1..], i - 1, k, of);
      assert refs[i := k][1..] == refs[1..][i - 1 := k];
    }
  }

  lemma {:induction false} NumberAppend(refs: seq<Ref>, k: Ref, of: Ref)
    ensures Number(refs + [k], of) == Number(refs, of) + if k == of then 1 else 0
  {
    if refs == [] {
      assert refs + [k] == [k];
    } else {
      NumberAppend(refs[1..], k, of);
      assert (refs + [k])[1..] == refs[1..] + [k];
    }
  }

  // ---------- the invariant ----------

  /** A resolved context owns its reference alone. */
  ghost predicate ContextsOk(s: State) {
    && (forall c :: ResolvedWith(s, c) ==>
          s.contexts[c].item.value < |s.refs| && s.refs[s.contexts[c].item.value] == Parked)
    && (forall c, d :: ResolvedWith(s, c) && ResolvedWith(s, d) && c != d ==> s.contexts[c].item != s.contexts[d].item)
  }

  ghost predicate Balanced(s: State) {
    Sum(s.count) + AllOwed(s.pc) == Number(s.refs, Counted)
  }

  /** A resolved context was resolved with the same reference before, or is so now. */
  lemma ContextKept(s: State, a: Action, c: nat)
    requires ContextsOk(s) && Enabled(s, a) && ResolvedWith(Step(s, a), c)
    ensures var s' := Step(s, a);
            && s'.contexts[c].item.value < |s'.refs| && s'.refs[s'.contexts[c].item.value] == Parked
            && (|| (ResolvedWith(s, c) && s.contexts[c].item == s'.contexts[c].item)
                || (a.SetItem? && a.c == c && s'.contexts[c].item == Some(a.r) && a.r < |s.refs|
                      && s.refs[a.r] == Counted))
  {
    assert ResolvedWith(s, c) || (a.SetItem? && a.c == c);
  }

  lemma ContextsKept(s: State, a: Action)
    requires ContextsOk(s) && Enabled(s, a)
    ensures ContextsOk(Step(s, a))
  {
    hide Enabled, Step;
    var s' := Step(s, a);
    forall c | ResolvedWith(s', c)
      ensures s'.contexts[c].item.value < |s'.refs| && s'.refs[s'.contexts[c].item.value] == Parked
    {
      ContextKept(s, a, c);
    }
    forall c, d | ResolvedWith(s', c) && ResolvedWith(s', d) && c != d
      ensures s'.contexts[c].item != s'.contexts[d].item
    {
      ContextKept(s, a, c);
      ContextKept(s, a, d);
    }
  }

  lemma Moves(s: State, t: nat, d: int, p: Pc)
    requires t < |s.count| && t < |s.pc|
    ensures Sum(Bump(s, t, d).count) == Sum(s.count) + d
    ensures AllOwed(Goto(s, t, p).pc) == AllOwed(s.pc) - Owed(s.pc[t]) + Owed(p)
  {
    SumUpdate(s.count, t, s.count[t] + d);
    OwedUpdate(s.pc, t, p);
  }

  predicate AboutContexts(a: Action) {
    a.SetItem? || a.SetNull? || a.DestroyContext? || a.ReleaseContext?
  }

  lemma ContextStepBalanced(s: State, a: Action)
    requires ContextsOk(s) && Balanced(s) && Enabled(s, a) && AboutContexts(a)
    ensures Balanced(Step(s, a))
  {
    hide Sum, AllOwed, Number;
    match a
    case SetItem(t, c, r) =>
      Moves(s, t, 0, Stored(c));
      NumberUpdate(s.refs, r, Parked, Counted);
    case SetNull(t, c) => Moves(s, t, 0, Notifying(c));
    case DestroyContext(t, c) =>
      if ResolvedWith(s, c) {
        Moves(s, t, 1, Owes(-1));
        NumberUpdate(s.refs, s.contexts[c].item.value, Dropped, Counted);
      }
    case ReleaseContext(t, c) =>
      if ResolvedWith(s, c) {
        Moves(s, t, 0, Owes(1));
        NumberUpdate(s.refs, s.contexts[c].item.value, Counted, Counted);
      }
  }

  lemma CounterStepBalanced(s: State, a: Action)
    requires Balanced(s) && Enabled(s, a) && !AboutContexts(a)
    ensures Balanced(Step(s, a))
  {
    hide Sum, AllOwed, Number;
    match a
    case Acquire(t) =>
      Moves(s, t, 0, Owes(1));
      NumberAppend(s.refs, Counted, Counted);
    case Drop(t, r) =>
      Moves(s, t, 0, Owes(-1));
      NumberUpdate(s.refs, r, Dropped, Counted);
    case Settle(t) => Moves(s, t, s.pc[t].change, Idle);
    case NewContext(t) =>
    case OnReady(t, c) =>
    case Lower(t) => Moves(s, t, -1, Notifying(s.pc[t].c));
    case CloneForCallback(t) =>
      Moves(s, t, 0, Cloned);
      Moves(s, t, 0, Idle);
      NumberAppend(s.refs, Callback, Counted);
    case SkipCallback(t) => Moves(s, t, 0, Idle);
    case CountClone(t) => Moves(s, t, 1, CloneCounted);
    case CorrectClone(t) => Moves(s, t, -1, Idle);
    case AdjustCallback(t, r) =>
      Moves(s, t, 1, Idle);
      NumberUpdate(s.refs, r, Counted, Counted);
  }

  lemma BalancedKept(s: State, a: Action)
    requires ContextsOk(s) && Balanced(s) && Enabled(s, a)
    ensures Balanced(Step(s, a))
  {
    if AboutContexts(a) {
      ContextStepBalanced(s, a);
    } else {
      CounterStepBalanced(s, a);
    }
  }

  // ---------- every run ----------

  function Init(threads: nat): State {
    State(seq(threads, _ => 0), seq(threads, _ => Idle), [], [])
  }

  predicate Runs(s: State, acts: seq<Action>)
    decreases |acts|
  {
    acts == [] || (Enabled(s, acts[0]) && Runs(Step(s, acts[0]), acts[1..]))
  }

  function Exec(s: State, acts: seq<Action>): State
    requires Runs(s, acts)
    decreases |acts|
  {
    if acts == [] then s else Exec(Step(s, acts[0]), acts[1..])
  }

  lemma {:induction false} RunKeeps(s: State, acts: seq<Action>)
    requires ContextsOk(s) && Balanced(s) && Runs(s, acts)
    ensures ContextsOk(Exec(s, acts)) && Balanced(Exec(s, acts))
    decreases |acts|
  {
    if acts != [] {
      ContextsKept(s, acts[0]);
      BalancedKept(s, acts[0]);
      hide ContextsOk, Balanced;
      RunKeeps(Step(s, acts[0]), acts[1..]);
    }
  }

  lemma {:induction false} NothingYet(threads: nat)
    ensures Sum(seq(threads, _ => 0)) == 0 && AllOwed(seq(threads, _ => Idle)) == 0
  {
    if threads > 0 {
      NothingYet(threads - 1);
      assert seq(threads, _ => 0)[1..] == seq(threads - 1, _ => 0);
      assert seq(threads, _ => Idle)[1..] == seq(threads - 1, _ => Idle);
    }
  }

  predicate Quiet(s: State) {
    forall t :: 0 <= t < |s.pc| ==> s.pc[t] == Idle
  }

  lemma {:induction false} QuietOwesNothing(pcs: seq<Pc>)
    requires forall t :: 0 <= t < |pcs| ==> pcs[t] == Idle
    ensures AllOwed(pcs) == 0
  {
    if pcs != [] {
      QuietOwesNothing(pcs[1..]);
    }
  }

  /** References nobody has dropped. */
  function Held(s: State): nat {
    Number(s.refs, Counted) + Number(s.refs, Parked) + Number(s.refs, Callback)
  }

  /** Between operations the counters of all threads add up to the references held, less those
      parked in resolved contexts and those of callback handles not yet adjusted for. */
  lemma CountsAddUp(threads: nat, acts: seq<Action>)
    requires Runs(Init(threads), acts) && Quiet(Exec(Init(threads), acts))
    ensures var s := Exec(Init(threads), acts);
            Sum(s.count) == Held(s) - Number(s.refs, Parked) - Number(s.refs, Callback)
  {
    NothingYet(threads);
    RunKeeps(Init(threads), acts);
    QuietOwesNothing(Exec(Init(threads), acts).pc);
  }

  /** So once no handle, context or callback holds a reference, they add up to zero. */
  lemma CountsCancel(threads: nat, acts: seq<Action>)
    requires Runs(Init(threads), acts) && Quiet(Exec(Init(threads), acts))
    requires Held(Exec(Init(threads), acts)) == 0
    ensures Sum(Exec(Init(threads), acts).count) == 0
  {
    CountsAddUp(threads, acts);
  }

  // ---------- each thread's own books ----------

  /** What an action adds to the acting thread's counter in the end: one for a reference it takes or
      is handed, minus one for a reference it gives back or parks in a context. */
  function Entry(s: State, a: Action): int {
    match a
    case Acquire(_) => 1
    case Drop(_, _) => -1
    case SetItem(_, _, _) => -1
    case ReleaseContext(_, c) => if ResolvedWith(s, c) then 1 else 0
    case AdjustCallback(_, _) => 1
    case _ => 0
  }

  /** What an action adds to the references held: a new handle or a callback's clone is one more, a
      dropped handle or a destroyed context with its item one less. */
  function Taken(s: State, a: Action): int {
    match a
    case Acquire(_) => 1
    case Drop(_, _) => -1
    case CloneForCallback(t) =>
      if t < |s.pc| && s.pc[t].Notifying? && ResolvedWith(s, s.pc[t].c) && s.contexts[s.pc[t].c].callback then 1 else 0
    case DestroyContext(_, c) => if ResolvedWith(s, c) then -1 else 0
    case _ => 0
  }

  function Booked(s: State, acts: seq<Action>, t: nat): int
    requires Runs(s, acts)
    decreases |acts|
  {
    if acts == [] then 0
    else (if acts[0].t == t then Entry(s, acts[0]) else 0) + Booked(Step(s, acts[0]), acts[1..], t)
  }

  function AllTaken(s: State, acts: seq<Action>): int
    requires Runs(s, acts)
    decreases |acts|
  {
    if acts == [] then 0 else Taken(s, acts[0]) + AllTaken(Step(s, acts[0]), acts[1..])
  }

  predicate Known(s: State, t: nat) {
    t < |s.count| && t < |s.pc|
  }

  lemma StepBooks(s: State, a: Action, t: nat)
    requires Enabled(s, a) && Known(s, t)
    ensures var s' := Step(s, a);
            && Known(s', t)
            && s'.count[t] + Owed(s'.pc[t]) == s.count[t] + Owed(s.pc[t]) + if a.t == t then Entry(s, a) else 0
  {
  }

  lemma {:induction false} RunBooks(s: State, acts: seq<Action>, t: nat)
    requires Runs(s, acts) && Known(s, t)
    ensures var s' := Exec(s, acts);
            Known(s', t) && s'.count[t] + Owed(s'.pc[t]) == s.count[t] + Owed(s.pc[t]) + Booked(s, acts, t)
    decreases |acts|
  {
    if acts != [] {
      StepBooks(s, acts[0], t);
      RunBooks(Step(s, acts[0]), acts[1..], t);
    }
  }

  lemma StepTaken(s: State, a: Action)
    requires Enabled(s, a) && ContextsOk(s)
    ensures Held(Step(s, a)) == Held(s) + Taken(s, a)
  {
    hide Number;
    match a
    case Acquire(t) => Appended(s.refs, Counted);
    case Drop(t, r) => Updated(s.refs, r, Dropped);
    case SetItem(t, c, r) => Updated(s.refs, r, Parked);
    case CloneForCallback(t) => Appended(s.refs, Callback);
    case DestroyContext(t, c) =>
      if ResolvedWith(s, c) { Updated(s.refs, s.contexts[c].item.value, Dropped); }
    case ReleaseContext(t, c) =>
      if ResolvedWith(s, c) { Updated(s.refs, s.contexts[c].item.value, Counted); }
    case AdjustCallback(t, r) => Updated(s.refs, r, Counted);
    case _ =>
  }

  function HeldOf(refs: seq<Ref>): nat {
    Number(refs, Counted) + Number(refs, Parked) + Number(refs, Callback)
  }

  lemma Appended(refs: seq<Ref>, k: Ref)
    ensures HeldOf(refs + [k]) == HeldOf(refs) + if k == Dropped then 0 else 1
  {
    NumberAppend(refs, k, Counted);
    NumberAppend(refs, k, Parked);
    NumberAppend(refs, k, Callback);
  }

  lemma Updated(refs: seq<Ref>, i: nat, k: Ref)
    requires i < |refs|
    ensures HeldOf(refs[i := k]) == HeldOf(refs) - (if refs[i] == Dropped then 0 else 1) + if k == Dropped then 0 else 1
  {
    NumberUpdate(refs, i, k, Counted);
    NumberUpdate(refs, i, k, Parked);
    NumberUpdate(refs, i, k, Callback);
  }

  lemma {:induction false} RunTaken(s: State, acts: seq<Action>)
    requires Runs(s, acts) && ContextsOk(s)
    ensures Held(Exec(s, acts)) == Held(s) + AllTaken(s, acts)
    decreases |acts|
  {
    if acts != [] {
      StepTaken(s, acts[0]);
      ContextsKept(s, acts[0]);
      hide ContextsOk, Taken, Held;
      RunTaken(Step(s, acts[0]), acts[1..]);
    }
  }

  /** Between operations every thread's counter is the balance of what it took and gave back itself,
      and the references held are those taken and not given back, by all threads together. */
  lemma BooksInEveryRun(threads: nat, acts: seq<Action>, t: nat)
    requires Runs(Init(threads), acts) && t < threads
    ensures var s := Exec(Init(threads), acts);
            && Known(s, t)
            && (s.pc[t] == Idle ==> s.count[t] == Booked(Init(threads), acts, t))
            && Held(s) == AllTaken(Init(threads), acts)
  {
    RunBooks(Init(threads), acts, t);
    RunTaken(Init(threads), acts);
  }
}
