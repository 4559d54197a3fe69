/** A run in which a wake-up is lost: a reader waits for a parent that is marked for the move of one
    of its children, and the parent's slot is used again before the release thread wakes its key. */
module LostWakeUp {
  import opened WakeUp

  lemma {:induction false} RunJoin(s: State, acts: seq<Action>, more: seq<Action>)
    requires Runs(s, acts) && Runs(Exec(s, acts), more)
    ensures Runs(s, acts + more) && Exec(s, acts + more) == Exec(Exec(s, acts), more)
    decreases |acts|
  {
    if acts == [] {
      assert acts + more == more;
    } else {
      hide Enabled, Step;
      assert (acts + more)[1..] == acts[1..] + more;
      RunJoin(Step(s, acts[0]), acts[1..], more);
    }
  }

  const SLOT: Item := 0
  const READER: ThreadId := 1
  const MOVER: ThreadId := 2
  const CONTEXT: Waiter := 9

  function Pcs(reader: Pc, mover: Pc): map<ThreadId, Pc> {
    map[READER := reader, MOVER := mover]
  }

  /** A parent of key a is marked for the move of a child, and a reader parks under that key. */
  const PARKING := [Create(SLOT, "a"), Mark(MOVER, SLOT), Read(READER, SLOT), Reference(READER),
      Park(READER, CONTEXT, SLOT)]

  /** The child is moved and the parent unmarked; the parent is evicted, and its slot used for key b. */
  const REUSING := [ChildMoved(MOVER), Evict(SLOT), FreeSlot(SLOT), Create(SLOT, "b")]

  /** The release thread looks up and wakes the key it finds in its parent's slot. */
  const MISSING := [Hit(MOVER, SLOT), Reference(MOVER), Wake(MOVER, SLOT), SetNext(MOVER)]

  function Parked(info: ItemInfo, mover: Pc): State {
    State(map[SLOT := info], map[Entry("a", SLOT) := [CONTEXT]], map[CONTEXT := 0], Pcs(Idle, mover))
  }

  ghost predicate Takes(s: State, a: Action, s': State) {
    Enabled(s, a) && Step(s, a) == s'
  }

  lemma {:induction false} Path(ss: seq<State>, acts: seq<Action>)
    requires |ss| == |acts| + 1 && (forall i :: 0 <= i < |acts| ==> Takes(ss[i], acts[i], ss[i + 1]))
    ensures Runs(ss[0], acts) && Exec(ss[0], acts) == ss[|acts|]
    decreases |acts|
  {
    hide Enabled, Step;
    if acts != [] {
      assert Takes(ss[0], acts[0], ss[1]);
      forall i | 0 <= i < |acts[1..]| ensures Takes(ss[1..][i], acts[1..][i], ss[1..][i + 1]) {
        assert Takes(ss[i + 1], acts[i + 1], ss[i + 2]);
      }
      Path(ss[1..], acts[1..]);
    }
  }

  lemma FourthLoses(ss: seq<State>, acts: seq<Action>)
    requires |acts| == 4 && |ss| == 5 && (forall i :: 0 <= i < 4 ==> Takes(ss[i], acts[i], ss[i + 1]))
    requires Runs(ss[0], acts) && Loses(ss[3], acts[3])
    ensures !Clean(ss[0], acts)
  {
    hide Enabled, Step, Loses;
    assert Takes(ss[2], acts[2], ss[3]) && Takes(ss[1], acts[1], ss[2]) && Takes(ss[0], acts[0], ss[1]);
    assert acts[1..][0] == acts[1] && acts[1..][1..] == acts[2..] && acts[2..][0] == acts[2];
    assert acts[2..][1..] == acts[3..] && acts[3..][0] == acts[3];
    assert Runs(ss[1], acts[1..]) && Runs(ss[2], acts[2..]) && Runs(ss[3], acts[3..]);
    assert !Clean(ss[3], acts[3..]);
    assert !Clean(ss[2], acts[2..]);
    assert !Clean(ss[1], acts[1..]);
  }

  const SLOT_A := ItemInfo("a", Unmarked)
  const SLOT_B := ItemInfo("b", Unmarked)
  const MOVING_A := ItemInfo("a", Moving)

  function Unparked(info: ItemInfo, reader: Pc, mover: Pc): State {
    State(map[SLOT := info], map[], map[], Pcs(reader, mover))
  }

  lemma ReadSteps()
    ensures Takes(Init({READER, MOVER}), Create(SLOT, "a"), Unparked(SLOT_A, Idle, Idle))
    ensures Takes(Unparked(SLOT_A, Idle, Idle), Mark(MOVER, SLOT), Unparked(MOVING_A, Idle, Marked(SLOT)))
    ensures Takes(Unparked(MOVING_A, Idle, Marked(SLOT)), Read(READER, SLOT),
                  Unparked(MOVING_A, Acquiring(SLOT, Reader), Marked(SLOT)))
  {
    assert Init({READER, MOVER}).pc == Pcs(Idle, Idle);
  }

  lemma ParkSteps()
    ensures Takes(Unparked(MOVING_A, Acquiring(SLOT, Reader), Marked(SLOT)), Reference(READER),
                  Unparked(MOVING_A, SawMoving(SLOT, Reader), Marked(SLOT)))
    ensures Takes(Unparked(MOVING_A, SawMoving(SLOT, Reader), Marked(SLOT)), Park(READER, CONTEXT, SLOT),
                  Parked(MOVING_A, Marked(SLOT)))
  {
    var s := Unparked(MOVING_A, SawMoving(SLOT, Reader), Marked(SLOT));
    assert FindsNone(s, "a") && At(s, Entry("a", SLOT)) + [CONTEXT] == [CONTEXT];
  }

  lemma ParkingRuns()
    ensures Runs(Init({READER, MOVER}), PARKING)
    ensures Exec(Init({READER, MOVER}), PARKING) == Parked(MOVING_A, Marked(SLOT))
  {
    hide Takes, Runs, Exec, Unparked, Parked, Init;
    ReadSteps();
    ParkSteps();
    Path([Init({READER, MOVER}), Unparked(SLOT_A, Idle, Idle), Unparked(MOVING_A, Idle, Marked(SLOT)),
          Unparked(MOVING_A, Acquiring(SLOT, Reader), Marked(SLOT)),
          Unparked(MOVING_A, SawMoving(SLOT, Reader), Marked(SLOT)), Parked(MOVING_A, Marked(SLOT))], PARKING);
  }

  lemma UnmarkSteps()
    ensures Takes(Parked(MOVING_A, Marked(SLOT)), ChildMoved(MOVER), Parked(SLOT_A, Looking(SLOT)))
    ensures Takes(Parked(SLOT_A, Looking(SLOT)), Evict(SLOT), Parked(ItemInfo("a", Gone), Looking(SLOT)))
  {
  }

  lemma ReuseSteps()
    ensures Takes(Parked(ItemInfo("a", Gone), Looking(SLOT)), FreeSlot(SLOT),
            Parked(ItemInfo("a", Free), Looking(SLOT)))
    ensures Takes(Parked(ItemInfo("a", Free), Looking(SLOT)), Create(SLOT, "b"), Parked(SLOT_B, Looking(SLOT)))
  {
  }

  lemma ReuseLoses()
    ensures Loses(Parked(ItemInfo("a", Free), Looking(SLOT)), Create(SLOT, "b"))
  {
    assert Entry("a", SLOT) in Parked(ItemInfo("a", Free), Looking(SLOT)).parked;
  }

  lemma ReusingRuns()
    ensures Runs(Parked(MOVING_A, Marked(SLOT)), REUSING) && !Clean(Parked(MOVING_A, Marked(SLOT)), REUSING)
    ensures Exec(Parked(MOVING_A, Marked(SLOT)), REUSING) == Parked(SLOT_B, Looking(SLOT))
  {
    hide Enabled, Step, Parked, Loses;
    UnmarkSteps();
    ReuseSteps();
    ReuseLoses();
    var ss := [Parked(MOVING_A, Marked(SLOT)), Parked(SLOT_A, Looking(SLOT)),
        Parked(ItemInfo("a", Gone), Looking(SLOT)),
               Parked(ItemInfo("a", Free), Looking(SLOT)), Parked(SLOT_B, Looking(SLOT))];
    Path(ss, REUSING);
    FourthLoses(ss, REUSING);
  }

  lemma LookupSteps()
    ensures Takes(Parked(SLOT_B, Looking(SLOT)), Hit(MOVER, SLOT), Parked(SLOT_B, Acquiring(SLOT, Release(SLOT))))
    ensures Takes(Parked(SLOT_B, Acquiring(SLOT, Release(SLOT))), Reference(MOVER), Parked(SLOT_B, Ready(SLOT, false)))
  {
  }

  lemma MissStep()
    ensures Takes(Parked(SLOT_B, Ready(SLOT, false)), Wake(MOVER, SLOT), Parked(SLOT_B, Waking([])))
  {
    var s := Parked(SLOT_B, Ready(SLOT, false));
    assert FindsNone(s, "b") && Entry("b", SLOT) !in s.parked;
    assert s.parked - {Entry("b", SLOT)} == s.parked;
  }

  lemma EndStep()
    ensures Takes(Parked(SLOT_B, Waking([])), SetNext(MOVER), Parked(SLOT_B, Idle))
  {
  }

  lemma MissingRuns()
    ensures Runs(Parked(SLOT_B, Looking(SLOT)), MISSING)
    ensures Exec(Parked(SLOT_B, Looking(SLOT)), MISSING) == Parked(SLOT_B, Idle)
  {
    hide Takes, Runs, Exec, Parked;
    LookupSteps();
    MissStep();
    EndStep();
    Path([Parked(SLOT_B, Looking(SLOT)), Parked(SLOT_B, Acquiring(SLOT, Release(SLOT))),
          Parked(SLOT_B, Ready(SLOT, false)), Parked(SLOT_B, Waking([])), Parked(SLOT_B, Idle)], MISSING);
  }

  /** A run that loses a wake-up: both threads are back, no thread can take a step of its own, and the
      reader's context is parked and was never set. */
  lemma LostWakeUp()
    ensures var acts := PARKING + REUSING + MISSING;
            && Runs(Init({READER, MOVER}), acts) && !Clean(Init({READER, MOVER}), acts)
            && var s := Exec(Init({READER, MOVER}), acts);
            && (forall t :: t in s.pc ==> s.pc[t] == Idle) && (forall a :: Enabled(s, a) ==> !ByThread(a) || !Quiet(a))
            && s.parked == map[Entry("a", SLOT) := [CONTEXT]] && s.sets == map[CONTEXT := 0]
  {
    hide Enabled, Step, Loses;
    var s0 := Init({READER, MOVER});
    ParkingRuns();
    ReusingRuns();
    MissingRuns();
    RunJoin(s0, PARKING, REUSING);
    RunJoin(s0, PARKING + REUSING, MISSING);
    if Clean(s0, PARKING + REUSING + MISSING) {
      CleanJoin(s0, PARKING + REUSING, MISSING);
      CleanJoin(s0, PARKING, REUSING);
    }
    forall a | Enabled(Parked(SLOT_B, Idle), a) ensures !ByThread(a) || !Quiet(a) {
      IdleStays(Parked(SLOT_B, Idle), a);
    }
  }

  lemma IdleStays(s: State, a: Action)
    requires Enabled(s, a) && (forall t :: t in s.pc ==> s.pc[t] == Idle)
    ensures !ByThread(a) || !Quiet(a)
  {
  }

  lemma {:induction false} CleanJoin(s: State, acts: seq<Action>, more: seq<Action>)
    requires Runs(s, acts) && Runs(Exec(s, acts), more) && Runs(s, acts + more) && Clean(s, acts + more)
    ensures Clean(s, acts) && Clean(Exec(s, acts), more)
    decreases |acts|
  {
    if acts == [] {
      assert acts + more == more;
    } else {
      hide Enabled, Step, Loses;
      assert (acts + more)[1..] == acts[1..] + more;
      CleanJoin(Step(s, acts[0]), acts[1..], more);
    }
  }
}
