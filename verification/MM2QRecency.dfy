/** The hot queue, and the warm queue with its tail, stay in order of last access along every run
    whose clock does not go back. So rebalancing, which looks only at positions, demotes the nodes
    that were not accessed for longest. */
module MM2QRecency {
  import opened Basics
  import opened MM2Q
  import opened MM2QRuns
  import opened MM2QTransparency

  /** Most recent first, and nothing newer than the clock. */
  ghost predicate Recent(s: seq<Node>, time: map<Node, Time>, clock: Time) {
    && (forall i :: 0 <= i < |s| ==> s[i] in time && time[s[i]] <= clock)
    && (forall i, j :: 0 <= i < j < |s| ==> s[i] in time && s[j] in time && time[s[i]] >= time[s[j]])
  }

  ghost predicate Ordered(q: Lists, time: map<Node, Time>, clock: Time) {
    Recent(Merged(q).hot, time, clock) && Recent(Merged(q).warm, time, clock)
  }

  // ---------- one sequence ----------

  lemma {:induction false} ErasePlace(s: seq<Node>, n: Node) returns (i: nat)
    requires n in s
    ensures i < |s| && s[i] == n && Erase(s, n) == s[..i] + s[i + 1..]
  {
    if s[0] == n {
      i := 0;
    } else {
      i := ErasePlace(s[1..], n);
      assert [s[0]] + (s[1..][..i] + s[1..][i + 1..]) == s[..i + 1] + s[i + 2..];
      i := i + 1;
    }
  }

  lemma {:induction false} EraseNothing(s: seq<Node>, n: Node)
    requires n !in s
    ensures Erase(s, n) == s
  {
    if s != [] {
      EraseNothing(s[1..], n);
    }
  }

  lemma WithoutRecent(s: seq<Node>, i: nat, time: map<Node, Time>, clock: Time)
    requires Recent(s, time, clock) && i < |s|
    ensures Recent(s[..i] + s[i + 1..], time, clock)
  {
    var t := s[..i] + s[i + 1..];
    forall j | 0 <= j < |t| ensures t[j] in time && time[t[j]] <= clock {
      assert t[j] == s[if j < i then j else j + 1];
    }
    forall j, k | 0 <= j < k < |t| ensures t[j] in time && t[k] in time && time[t[j]] >= time[t[k]] {
      assert t[j] == s[if j < i then j else j + 1] && t[k] == s[if k < i then k else k + 1];
    }
  }

  lemma EraseRecent(s: seq<Node>, n: Node, time: map<Node, Time>, clock: Time)
    requires Recent(s, time, clock)
    ensures Recent(Erase(s, n), time, clock)
  {
    hide Recent;
    if n in s {
      var i := ErasePlace(s, n);
      WithoutRecent(s, i, time, clock);
    } else {
      EraseNothing(s, n);
    }
  }

  /** Stamping a node that is not in the sequence changes nothing there, and lets the clock go on. */
  lemma RecentLater(s: seq<Node>, n: Node, now: Time, time: map<Node, Time>, clock: Time, later: Time)
    requires Recent(s, time, clock) && n !in s && later >= clock
    ensures Recent(s, time[n := now], later)
  {
    assert forall i :: 0 <= i < |s| ==> s[i] != n;
  }

  lemma LinkRecent(s: seq<Node>, n: Node, now: Time, time: map<Node, Time>, clock: Time)
    requires Recent(s, time, clock) && n !in s && now >= clock
    ensures Recent([n] + s, time[n := now], now)
  {
    RecentLater(s, n, now, time, clock, now);
  }

  lemma SubstRecent(s: seq<Node>, a: Node, b: Node, time: map<Node, Time>, clock: Time)
    requires Recent(s, time, clock) && b !in s && a in s
    ensures a in time && Recent(Subst(s, a, b), time[b := time[a]], clock)
  {
    SubstAt(s, a, b);
    hide Subst;
    assert forall i :: 0 <= i < |s| ==> s[i] != b;
  }

  // ---------- the queues ----------

  /** Rebalancing cuts both queues at their ends. */
  lemma RebalancedCuts(q: Lists, c: Config)
    ensures Merged(Rebalanced(q, c)).hot <= Merged(q).hot
    ensures Merged(Rebalanced(q, c)).warm <= Merged(q).warm
  {
    hide Share, Count, WarmPercent, AdjustedWarmTail, AdjustedColdTail;
    MergedRebalanced(q, c);
    var m := Merged(q);
    var w, h := Share(WarmPercent(c), Count(m)),
        Share(c.hotPercent, Count(ShrunkWarm(m, Share(WarmPercent(c), Count(m)))));
    MergedCount(q, c);
    NothingToAdjust(ShrunkHot(ShrunkWarm(m, w), h));
  }

  lemma PrefixRecent(t: seq<Node>, s: seq<Node>, time: map<Node, Time>, clock: Time)
    requires Recent(s, time, clock) && t <= s
    ensures Recent(t, time, clock)
  {
  }

  lemma RebalancedOrdered(q: Lists, c: Config, time: map<Node, Time>, clock: Time, rebalance: bool)
    requires Ordered(q, time, clock)
    ensures Ordered(if rebalance then Rebalanced(q, c) else q, time, clock)
  {
    hide Recent, Rebalanced, Merged;
    RebalancedCuts(q, c);
    if rebalance {
      PrefixRecent(Merged(Rebalanced(q, c)).hot, Merged(q).hot, time, clock);
      PrefixRecent(Merged(Rebalanced(q, c)).warm, Merged(q).warm, time, clock);
    }
  }

  lemma UnlinkOrdered(q: Lists, t: LruType, n: Node, time: map<Node, Time>, clock: Time)
    requires EachOnce(q) && n in Get(q, t) && Ordered(q, time, clock)
    ensures Ordered(Unlink(q, t, n), time, clock)
  {
    hide Recent, Erase, Merged, EachOnce;
    MergedUnlink(q, t, n);
    EraseRecent(Merged(q).hot, n, time, clock);
    EraseRecent(Merged(q).warm, n, time, clock);
  }

  lemma LinkOrdered(q: Lists, t: LruType, n: Node, now: Time, time: map<Node, Time>, clock: Time)
    requires Ordered(q, time, clock) && n !in Queued(q) && (t.Hot? || t.Warm?) && now >= clock
    ensures Ordered(LinkAtHead(q, t, n), time[n := now], now)
  {
    hide Recent;
    MergedLink(q, t, n);
    var m := Merged(q);
    assert n !in m.hot && n !in m.warm;
    LinkRecent(if t.Hot? then m.hot else m.warm, n, now, time, clock);
    RecentLater(if t.Hot? then m.warm else m.hot, n, now, time, clock, now);
  }

  lemma SwapOrdered(q: Lists, t: LruType, a: Node, b: Node, time: map<Node, Time>, clock: Time)
    requires EachOnce(q) && a in Get(q, t) && b !in Queued(q) && a in time && Ordered(q, time, clock)
    ensures Ordered(With(q, t, Subst(Get(q, t), a, b)), time[b := time[a]], clock)
  {
    hide Recent, Subst;
    MergedSwap(q, t, a, b);
    var m := Merged(q);
    assert b !in m.hot && b !in m.warm;
    RecentLater(m.hot, b, time[a], time, clock, clock);
    RecentLater(m.warm, b, time[a], time, clock, clock);
    if PlainType(t) == Hot {
      SubstRecent(m.hot, a, b, time, clock);
    } else if PlainType(t) == Warm {
      SubstRecent(m.warm, a, b, time, clock);
    }
  }

  // ---------- who is demoted ----------

  /** A node that left the sequence, but not the container, was accessed no later than any node in it now. */
  ghost predicate OldestFirst(before: seq<Node>, after: seq<Node>, linked: set<Node>, time: map<Node, Time>) {
    forall x, y :: x in after && y in before && y !in after && y in linked ==>
      x in time && y in time && time[x] >= time[y]
  }

  ghost predicate DemotesOldest(s: State, s': State) {
    && OldestFirst(s.lru.hot, s'.lru.hot, s'.linked, s'.time)
    && OldestFirst(s.lru.warm + s.lru.warmTail, s'.lru.warm + s'.lru.warmTail, s'.linked, s'.time)
  }

  ghost predicate Keeps(before: seq<Node>, after: seq<Node>, linked: set<Node>) {
    forall y :: y in before && y in linked ==> y in after
  }

  lemma CutOldest(before: seq<Node>, mid: seq<Node>, after: seq<Node>, linked: set<Node>, time: map<Node, Time>,
      clock: Time)
    requires Recent(mid, time, clock) && after <= mid && Keeps(before, mid, linked)
    ensures OldestFirst(before, after, linked, time)
  {
    forall x, y | x in after && y in before && y !in after && y in linked
      ensures x in time && y in time && time[x] >= time[y]
    {
      var cut := mid[|after|..];
      assert mid == after + cut && y in mid;
      var i :| 0 <= i < |after| && after[i] == x;
      var j :| 0 <= j < |cut| && cut[j] == y;
      assert mid[i] == x && mid[|after| + j] == y;
    }
  }

  /** A step that brings the queues to `q` and then, perhaps, rebalances. */
  lemma DemotesThrough(s: State, q: Lists, c: Config, rebalance: bool, s': State, clock: Time)
    requires Ordered(q, s'.time, clock) && s'.lru == if rebalance then Rebalanced(q, c) else q
    requires Keeps(Merged(s.lru).hot, Merged(q).hot, s'.linked) && Keeps(Merged(s.lru).warm, Merged(q).warm, s'.linked)
    ensures DemotesOldest(s, s') && Ordered(s'.lru, s'.time, clock)
  {
    RebalancedOrdered(q, c, s'.time, clock, rebalance);
    RebalancedCuts(q, c);
    hide Rebalanced, Recent, Keeps, OldestFirst;
    CutOldest(Merged(s.lru).hot, Merged(q).hot, Merged(s'.lru).hot, s'.linked, s'.time, clock);
    CutOldest(Merged(s.lru).warm, Merged(q).warm, Merged(s'.lru).warm, s'.linked, s'.time, clock);
  }

  lemma LinkKeeps(q: Lists, t: LruType, n: Node, linked: set<Node>)
    requires t.Hot? || t.Warm?
    ensures Keeps(Merged(q).hot, Merged(LinkAtHead(q, t, n)).hot, linked)
    ensures Keeps(Merged(q).warm, Merged(LinkAtHead(q, t, n)).warm, linked)
  {
    MergedLink(q, t, n);
  }

  lemma EraseKeeps(s: seq<Node>, n: Node, linked: set<Node>)
    ensures Keeps(s, Erase(s, n), linked - {n})
  {
    if n in s {
      var i := ErasePlace(s, n);
      assert s == s[..i] + [n] + s[i + 1..];
    } else {
      EraseNothing(s, n);
    }
  }

  lemma UnlinkKeeps(q: Lists, t: LruType, n: Node, linked: set<Node>)
    requires EachOnce(q) && n in Get(q, t)
    ensures Keeps(Merged(q).hot, Merged(Unlink(q, t, n)).hot, linked - {n})
    ensures Keeps(Merged(q).warm, Merged(Unlink(q, t, n)).warm, linked - {n})
  {
    hide Erase, Merged, EachOnce;
    MergedUnlink(q, t, n);
    EraseKeeps(Merged(q).hot, n, linked);
    EraseKeeps(Merged(q).warm, n, linked);
  }

  /** A node taken to the head of hot from hot, or else of warm, leaves neither. */
  lemma PromoteKeeps(q: Lists, t: LruType, n: Node, linked: set<Node>)
    requires EachOnce(q) && n in Get(q, t)
    ensures var q' := LinkAtHead(Unlink(q, t, n), if t.Hot? then Hot else Warm, n);
            Keeps(Merged(q).hot, Merged(q').hot, linked) && Keeps(Merged(q).warm, Merged(q').warm, linked)
  {
    var target, u := if t.Hot? then Hot else Warm, Unlink(q, t, n);
    UnlinkKeeps(q, t, n, linked);
    LinkKeeps(u, target, n, linked);
    MergedLink(u, target, n);
    if t.Hot? {
      OneQueue(q, t, Warm, n);
      OneQueue(q, t, WarmTail, n);
    } else {
      OneQueue(q, t, Hot, n);
    }
    hide Unlink, EachOnce;
    assert n in (if t.Hot? then Merged(LinkAtHead(u, target, n)).hot else Merged(LinkAtHead(u, target, n)).warm);
  }

  lemma SubstKeeps(s: seq<Node>, a: Node, b: Node, linked: set<Node>)
    requires b !in s
    ensures Keeps(s, Subst(s, a, b), linked - {a} + {b})
  {
    SubstAt(s, a, b);
    hide Subst;
    forall y | y in s && y in linked - {a} + {b} ensures y in Subst(s, a, b) {
      var i :| 0 <= i < |s| && s[i] == y;
      assert Subst(s, a, b)[i] == y;
    }
  }

  lemma SwapKeeps(q: Lists, t: LruType, a: Node, b: Node, linked: set<Node>)
    requires EachOnce(q) && a in Get(q, t) && b !in Queued(q)
    ensures var q' := With(q, t, Subst(Get(q, t), a, b));
            && Keeps(Merged(q).hot, Merged(q').hot, linked - {a} + {b})
            && Keeps(Merged(q).warm, Merged(q').warm, linked - {a} + {b})
  {
    hide Subst;
    MergedSwap(q, t, a, b);
    SubstKeeps(Merged(q).hot, a, b, linked);
    SubstKeeps(Merged(q).warm, a, b, linked);
  }

  // ---------- the operations ----------

  ghost predicate Good(s: State, clock: Time) {
    Valid(s) && Ordered(s.lru, s.time, clock)
  }

  function Clock(op: Op, clock: Time): Time {
    match op
    case Add(_, now) => now
    case Access(_, _, now) => now
    case _ => clock
  }

  /** The clock does not go back, and a replacement brings no stale bits along. */
  predicate Permitted(s: State, op: Op, clock: Time) {
    Clock(op, clock) >= clock && Allowed(s, op)
  }

  lemma NotQueued(s: State, n: Node)
    requires Valid(s) && n !in s.linked
    ensures n !in Queued(s.lru)
  {
  }

  lemma OrderedLater(q: Lists, time: map<Node, Time>, clock: Time, later: Time)
    requires Ordered(q, time, clock) && later >= clock
    ensures Ordered(q, time, later)
  {
  }

  lemma AddGood(s: State, n: Node, now: Time, clock: Time)
    requires Good(s, clock) && now >= clock
    ensures Good(Added(s, n, now), now) && DemotesOldest(s, Added(s, n, now))
  {
    AddedValid(s, n, now);
    hide Ordered, Rebalanced, Valid, Remark, LinkAtHead, Keeps;
    if n in s.linked {
      OrderedLater(s.lru, s.time, clock, now);
    } else {
      hide DemotesOldest;
      var s', q := Added(s, n, now), LinkAtHead(s.lru, Hot, n);
      NotQueued(s, n);
      LinkOrdered(s.lru, Hot, n, now, s.time, clock);
      LinkKeeps(s.lru, Hot, n, s'.linked);
      DemotesThrough(s, q, s.config, true, s', now);
    }
  }

  lemma RemoveGood(s: State, n: Node, rebalance: bool, clock: Time)
    requires Good(s, clock)
    ensures Good(Removed(s, n, rebalance), clock) && DemotesOldest(s, Removed(s, n, rebalance))
  {
    hide Ordered, Rebalanced, Remark, Unlink, EachOnce, LruTypeOf, Keeps;
    RemovedValid(s, n, rebalance);
    if n in s.linked {
      hide DemotesOldest;
      var t := LruTypeIn(s, n);
      BitsNameQueue(s, n, t);
      UnlinkOrdered(s.lru, t, n, s.time, clock);
      UnlinkKeeps(s.lru, t, n, s.linked);
      DemotesThrough(s, Unlink(s.lru, t, n), s.config, rebalance, Removed(s, n, rebalance), clock);
    }
  }

  lemma AccessGood(s: State, n: Node, mode: Mode, now: Time, clock: Time)
    requires Good(s, clock) && now >= clock
    ensures Good(Accessed(s, n, mode, now), now) && DemotesOldest(s, Accessed(s, n, mode, now))
  {
    hide Ordered, Rebalanced, Remark, Unlink, EachOnce, LruTypeOf, LinkAtHead, Keeps;
    AccessedValid(s, n, mode, now);
    if Due(s, n, mode, now) {
      hide DemotesOldest;
      var t := LruTypeIn(s, n);
      BitsNameQueue(s, n, t);
      var target, q := if t.Hot? then Hot else Warm, Unlink(s.lru, t, n);
      UnlinkOrdered(s.lru, t, n, s.time, clock);
      UnlinkKeepsDistinct(s.lru, t, n);
      LinkOrdered(q, target, n, now, s.time, clock);
      PromoteKeeps(s.lru, t, n, s.linked);
      DemotesThrough(s, LinkAtHead(q, target, n), s.config, (t.Cold? || t.ColdTail?) && s.config.rebalanceOnAccess,
                     Accessed(s, n, mode, now), now);
    } else {
      OrderedLater(s.lru, s.time, clock, now);
    }
  }

  lemma ReplaceGood(s: State, a: Node, b: Node, clock: Time)
    requires Good(s, clock) && Permitted(s, Replace(a, b), clock)
    ensures Good(Replaced(s, a, b), clock) && DemotesOldest(s, Replaced(s, a, b))
  {
    hide Ordered, Remark, Subst, EachOnce, LruTypeOf, Keeps;
    if a in s.linked && b !in s.linked && a in s.time {
      hide DemotesOldest;
      var t := LruTypeIn(s, a);
      ReplacedValid(s, a, b);
      BitsNameQueue(s, a, t);
      NotQueued(s, b);
      SwapOrdered(s.lru, t, a, b, s.time, clock);
      SwapKeeps(s.lru, t, a, b, s.linked);
      DemotesThrough(s, With(s.lru, t, Subst(Get(s.lru, t), a, b)), s.config, false, Replaced(s, a, b), clock);
    }
  }

  lemma StepGood(s: State, op: Op, clock: Time)
    requires Good(s, clock) && Permitted(s, op, clock)
    ensures Good(Apply(s, op), Clock(op, clock)) && DemotesOldest(s, Apply(s, op))
  {
    match op
    case Add(n, now) => AddGood(s, n, now, clock);
    case Remove(n) => RemoveGood(s, n, true, clock);
    case Evict(n) => RemoveGood(s, n, false, clock);
    case Replace(a, b) => ReplaceGood(s, a, b, clock);
    case Access(n, mode, now) => AccessGood(s, n, mode, now, clock);
    case SetConfig(c) =>
  }

  // ---------- whole runs ----------

  predicate AllPermitted(s: State, ops: seq<Op>, clock: Time)
    decreases |ops|
  {
    ops == [] || (Permitted(s, ops[0], clock) && AllPermitted(Apply(s, ops[0]), ops[1..], Clock(ops[0], clock)))
  }

  function LastClock(ops: seq<Op>, clock: Time): Time
    decreases |ops|
  {
    if ops == [] then clock else LastClock(ops[1..], Clock(ops[0], clock))
  }

  lemma {:induction false} RunGood(s: State, ops: seq<Op>, clock: Time)
    requires Good(s, clock) && AllPermitted(s, ops, clock)
    ensures Good(Run(s, ops), LastClock(ops, clock))
    decreases |ops|
  {
    if ops != [] {
      StepGood(s, ops[0], clock);
      hide Good, Apply, Permitted;
      RunGood(Apply(s, ops[0]), ops[1..], Clock(ops[0], clock));
    }
  }

  /** In every state a run reaches, hot and warm are in order of last access. */
  lemma RecentInEveryRun(c: Config, ops: seq<Op>)
    requires CheckLruSizes(c) && AllPermitted(Fresh(c), ops, 0)
    ensures var s := Run(Fresh(c), ops);
            && Recent(s.lru.hot, s.time, LastClock(ops, 0))
            && Recent(s.lru.warm + s.lru.warmTail, s.time, LastClock(ops, 0))
  {
    FreshValid(c);
    RunGood(Fresh(c), ops, 0);
  }

  /** Whatever the run before it, no step takes a node out of hot, or out of warm, that was accessed
      later than one it leaves there, except to hand it out of the container. */
  lemma OldestDemoted(c: Config, ops: seq<Op>, op: Op)
    requires CheckLruSizes(c) && AllPermitted(Fresh(c), ops, 0)
    requires Permitted(Run(Fresh(c), ops), op, LastClock(ops, 0))
    ensures DemotesOldest(Run(Fresh(c), ops), Apply(Run(Fresh(c), ops), op))
  {
    FreshValid(c);
    RunGood(Fresh(c), ops, 0);
    hide Run, AllPermitted, Good, Permitted, Apply, DemotesOldest;
    StepGood(Run(Fresh(c), ops), op, LastClock(ops, 0));
  }
}
