/** Runs of the 2Q container: where every node is, and how long the queues are. */
module MM2QRuns {
  import opened Basics
  import opened MM2Q

  datatype Op =
    | Add(n: Node, now: Time)
    | Remove(n: Node)
    | Evict(n: Node)
    | Replace(a: Node, b: Node)
    | Access(n: Node, mode: Mode, now: Time)
    | SetConfig(c: Config)

  function Apply(s: State, op: Op): State {
    match op
    case Add(n, now) => Added(s, n, now)
    case Remove(n) => Removed(s, n, true)
    case Evict(n) => Removed(s, n, false)
    case Replace(a, b) => Replaced(s, a, b)
    case Access(n, mode, now) => Accessed(s, n, mode, now)
    case SetConfig(c) => Reconfigured(s, c)
  }

  /** A replacement brings no stale bits along, and a configuration has acceptable sizes. */
  predicate Allowed(s: State, op: Op) {
    match op
    case Replace(a, b) => a in s.linked && b !in s.linked ==> Fits(s.marks, b, LruTypeIn(s, a))
    case SetConfig(c) => CheckLruSizes(c)
    case _ => true
  }

  predicate AllAllowed(s: State, ops: seq<Op>)
    decreases |ops|
  {
    ops == [] || (Allowed(s, ops[0]) && AllAllowed(Apply(s, ops[0]), ops[1..]))
  }

  function Run(s: State, ops: seq<Op>): State
    decreases |ops|
  {
    if ops == [] then s else Run(Apply(s, ops[0]), ops[1..])
  }

  function Fresh(c: Config): State {
    State(EMPTY, Marks({}, {}, {}), {}, map[], c)
  }

  // ---------- where the nodes are ----------

  lemma FreshValid(c: Config)
    requires CheckLruSizes(c)
    ensures Valid(Fresh(c))
  {
  }

  lemma StepValid(s: State, op: Op)
    requires Valid(s) && Allowed(s, op)
    ensures Valid(Apply(s, op))
  {
    match op
    case Add(n, now) => AddedValid(s, n, now);
    case Remove(n) => RemovedValid(s, n, true);
    case Evict(n) => RemovedValid(s, n, false);
    case Replace(a, b) =>
      if a in s.linked && b !in s.linked { ReplacedValid(s, a, b); }
    case Access(n, mode, now) => AccessedValid(s, n, mode, now);
    case SetConfig(c) =>
  }

  lemma {:induction false} RunValid(s: State, ops: seq<Op>)
    requires Valid(s) && AllAllowed(s, ops)
    ensures Valid(Run(s, ops))
    decreases |ops|
  {
    if ops != [] {
      StepValid(s, ops[0]);
      hide Valid, Apply, Allowed;
      RunValid(Apply(s, ops[0]), ops[1..]);
    }
  }

  /** In every state a run reaches, each linked node is in exactly the queue its bits name. */
  lemma PlacedInRuns(c: Config, ops: seq<Op>, n: Node, t: LruType)
    requires CheckLruSizes(c) && AllAllowed(Fresh(c), ops)
    ensures var s := Run(Fresh(c), ops);
            n in Get(s.lru, t) <==> n in s.linked && t == LruTypeIn(s, n)
  {
    FreshValid(c);
    RunValid(Fresh(c), ops);
    BitsNameQueue(Run(Fresh(c), ops), n, t);
  }

  // ---------- sizes along runs ----------

  predicate TailsFit(s: State) {
    |s.lru.warmTail| <= s.config.tailSize && |s.lru.coldTail| <= s.config.tailSize
  }

  predicate Accepts(s: State, c: Config) {
    (s.config.tailSize > 0) == (c.tailSize > 0)
  }

  /** A configuration whose tail size is below the length a tail queue has. */
  predicate CutsTails(s: State, op: Op) {
    op.SetConfig? && Accepts(s, op.c) && !(|s.lru.warmTail| <= op.c.tailSize && |s.lru.coldTail| <= op.c.tailSize)
  }

  predicate NeverCutsTails(s: State, ops: seq<Op>)
    decreases |ops|
  {
    ops == [] || (!CutsTails(s, ops[0]) && NeverCutsTails(Apply(s, ops[0]), ops[1..]))
  }

  lemma {:induction false} EraseLength(s: seq<Node>, n: Node)
    ensures |Erase(s, n)| == |s| - if n in s then 1 else 0
  {
    if s != [] {
      EraseLength(s[1..], n);
    }
  }

  lemma {:induction false} SubstAt(s: seq<Node>, a: Node, b: Node)
    ensures |Subst(s, a, b)| == |s|
    ensures forall i {:trigger Subst(s, a, b)[i]} :: 0 <= i < |s| ==> Subst(s, a, b)[i] == if s[i] == a then b else s[i]
  {
    if s != [] {
      SubstAt(s[1..], a, b);
    }
  }

  /** The operations that end with a rebalancing. */
  predicate Rebalances(s: State, op: Op) {
    match op
    case Add(n, _) => n !in s.linked
    case Remove(n) => n in s.linked
    case Access(n, mode, now) =>
      Due(s, n, mode, now) && s.config.rebalanceOnAccess && (LruTypeIn(s, n).Cold? || LruTypeIn(s, n).ColdTail?)
    case _ => false
  }

  function Unbalanced(s: State, op: Op): Lists
    requires Rebalances(s, op)
  {
    match op
    case Add(n, _) => LinkAtHead(s.lru, Hot, n)
    case Remove(n) => Unlink(s.lru, LruTypeIn(s, n), n)
    case Access(n, _, _) => LinkAtHead(Unlink(s.lru, LruTypeIn(s, n), n), Warm, n)
  }

  lemma RebalancedFrom(s: State, op: Op)
    requires Rebalances(s, op)
    ensures Apply(s, op).lru == Rebalanced(Unbalanced(s, op), s.config) && Apply(s, op).config == s.config
    ensures |Unbalanced(s, op).warmTail| <= |s.lru.warmTail| && |Unbalanced(s, op).coldTail| <= |s.lru.coldTail|
  {
    hide Rebalanced, Remark, LruTypeOf, Erase;
    if !op.Add? {
      EraseLength(Get(s.lru, LruTypeIn(s, op.n)), op.n);
    }
  }

  predicate FullTails(s: State) {
    var q, size := s.lru, s.config.tailSize;
    |q.coldTail| == Min(size, |q.cold| + |q.coldTail|) && |q.warmTail| == Min(size, |q.warm| + |q.warmTail|)
  }

  /** Warm and hot within their shares, cold with at least its own, both tails as full as they can be. */
  predicate Balanced(s: State) {
    var q, size := s.lru, Count(s.lru);
    && |q.warm| + |q.warmTail| <= Share(WarmPercent(s.config), size)
    && |q.hot| <= Share(s.config.hotPercent, size)
    && 100 * (|q.cold| + |q.coldTail|) >= s.config.coldPercent * size
    && FullTails(s)
  }

  lemma RebalanceBalances(s: State, op: Op)
    requires CheckLruSizes(s.config) && TailsFit(s) && Rebalances(s, op)
    ensures Balanced(Apply(s, op))
  {
    hide Rebalanced, Share, WarmPercent, CheckLruSizes, Count, Rebalances, Unbalanced, Apply;
    RebalancedFrom(s, op);
    RebalancedSizes(Unbalanced(s, op), s.config);
  }

  // ---------- operations that do not rebalance ----------

  lemma OtherwiseSizes(s: State, op: Op)
    requires Valid(s) && !Rebalances(s, op)
    ensures var q, q' := s.lru, Apply(s, op).lru;
            match op
            case Evict(n) =>
              var t := LruTypeIn(s, n);
              && |q'.warm| == |q.warm| - (if n in s.linked && t.Warm? then 1 else 0)
              && |q'.warmTail| == |q.warmTail| - (if n in s.linked && t.WarmTail? then 1 else 0)
              && |q'.cold| == |q.cold| - (if n in s.linked && t.Cold? then 1 else 0)
              && |q'.coldTail| == |q.coldTail| - (if n in s.linked && t.ColdTail? then 1 else 0)
            case Access(n, mode, now) =>
              var t, due := LruTypeIn(s, n), Due(s, n, mode, now);
              && |q'.warm| == |q.warm| + (if due && !t.Hot? && !t.Warm? then 1 else 0)
              && |q'.warmTail| == |q.warmTail| - (if due && t.WarmTail? then 1 else 0)
              && |q'.cold| == |q.cold| - (if due && t.Cold? then 1 else 0)
              && |q'.coldTail| == |q.coldTail| - (if due && t.ColdTail? then 1 else 0)
            case _ =>
              && |q'.warm| == |q.warm| && |q'.warmTail| == |q.warmTail|
              && |q'.cold| == |q.cold| && |q'.coldTail| == |q.coldTail|
  {
    hide Rebalanced, Remark, LruTypeOf, Erase, Subst, EachOnce, Queued, CheckLruSizes;
    match op {
      case Evict(n) =>
        BitsNameQueue(s, n, LruTypeIn(s, n));
        EraseLength(Get(s.lru, LruTypeIn(s, n)), n);
      case Access(n, mode, now) =>
        BitsNameQueue(s, n, LruTypeIn(s, n));
        EraseLength(Get(s.lru, LruTypeIn(s, n)), n);
      case Replace(a, b) =>
        SubstAt(Get(s.lru, LruTypeIn(s, a)), a, b);
      case _ =>
    }
  }

  lemma TailMembers(s: State, n: Node)
    requires Valid(s) && n in s.linked
    ensures LruTypeIn(s, n).WarmTail? ==> |s.lru.warmTail| > 0
    ensures LruTypeIn(s, n).ColdTail? ==> |s.lru.coldTail| > 0
  {
    BitsNameQueue(s, n, LruTypeIn(s, n));
  }

  // ---------- tail queues of the configured size ----------

  /** The tails outgrow their size by a configuration only, and exactly by one that cuts them. */
  lemma StepTailsFit(s: State, op: Op)
    requires Valid(s) && TailsFit(s)
    ensures TailsFit(Apply(s, op)) <==> !CutsTails(s, op)
  {
    hide Rebalanced, Share, WarmPercent, CheckLruSizes, Count, Remark, Erase, Subst, EachOnce, Queued, LruTypeOf;
    if Rebalances(s, op) {
      RebalanceBalances(s, op);
      RebalancedFrom(s, op);
    } else {
      OtherwiseSizes(s, op);
    }
  }

  lemma {:induction false} RunTailsFit(s: State, ops: seq<Op>)
    requires Valid(s) && AllAllowed(s, ops) && TailsFit(s) && NeverCutsTails(s, ops)
    ensures Valid(Run(s, ops)) && TailsFit(Run(s, ops))
    decreases |ops|
  {
    if ops != [] {
      StepTailsFit(s, ops[0]);
      StepValid(s, ops[0]);
      hide Valid, TailsFit, Allowed, CutsTails, Apply;
      RunTailsFit(Apply(s, ops[0]), ops[1..]);
    }
  }

  /** After any run in which no configuration cut the tails, whatever rebalances balances. */
  lemma BalancedAfterRebalance(c: Config, ops: seq<Op>, op: Op)
    requires CheckLruSizes(c) && AllAllowed(Fresh(c), ops) && NeverCutsTails(Fresh(c), ops)
    requires Rebalances(Run(Fresh(c), ops), op)
    ensures Balanced(Apply(Run(Fresh(c), ops), op))
  {
    hide Balanced, Rebalances, Apply;
    FreshValid(c);
    RunTailsFit(Fresh(c), ops);
    RebalanceBalances(Run(Fresh(c), ops), op);
  }

  /** The operations that leave a tail queue other than as full as it can be: taking a node out of
      a tail queue, by eviction or by a due access, without a rebalancing and with nodes left that
      could take its place; promoting a cold node to warm while the warm tail is not full; and
      configuring a tail size that a queue now could, or cannot, meet. */
  predicate UnfillsTails(s: State, op: Op) {
    var q, size := s.lru, s.config.tailSize;
    match op
    case Evict(n) =>
      var t := LruTypeIn(s, n);
      n in s.linked && ((t.WarmTail? && q.warm != []) || (t.ColdTail? && q.cold != []))
    case Access(n, mode, now) =>
      var t := LruTypeIn(s, n);
      && Due(s, n, mode, now)
      && (|| t.WarmTail?
          || (t.Cold? && !s.config.rebalanceOnAccess && |q.warmTail| < size)
          || (t.ColdTail? && !s.config.rebalanceOnAccess && (|q.warmTail| < size || q.cold != [])))
    case SetConfig(c) =>
      Accepts(s, c) && (CutsTails(s, op) || (c.tailSize > size && (q.warm != [] || q.cold != [])))
    case _ => false
  }

  /** From full tails, an operation leads to full tails exactly if it is none of these. */
  lemma FullTailsKept(s: State, op: Op)
    requires Valid(s) && FullTails(s)
    ensures FullTails(Apply(s, op)) <==> !UnfillsTails(s, op)
  {
    hide Rebalanced, Share, WarmPercent, CheckLruSizes, Count, Remark, Erase, Subst, EachOnce, Queued, LruTypeOf;
    if Rebalances(s, op) {
      RebalanceBalances(s, op);
    } else {
      OtherwiseSizes(s, op);
      if (op.Evict? || op.Access?) && op.n in s.linked {
        TailMembers(s, op.n);
      }
    }
  }

  predicate NeverUnfillsTails(s: State, ops: seq<Op>)
    decreases |ops|
  {
    ops == [] || (!UnfillsTails(s, ops[0]) && NeverUnfillsTails(Apply(s, ops[0]), ops[1..]))
  }

  lemma {:induction false} RunFullTails(s: State, ops: seq<Op>)
    requires Valid(s) && FullTails(s) && AllAllowed(s, ops) && NeverUnfillsTails(s, ops)
    ensures FullTails(Run(s, ops))
    decreases |ops|
  {
    if ops != [] {
      FullTailsKept(s, ops[0]);
      StepValid(s, ops[0]);
      hide Valid, FullTails, Allowed, UnfillsTails, Apply;
      RunFullTails(Apply(s, ops[0]), ops[1..]);
    }
  }

  // ---------- two runs ----------

  lemma Unrolled(s: State, a: Op, b: Op, c: Op)
    ensures Run(s, [a, b, c]) == Apply(Apply(Apply(s, a), b), c)
    ensures AllAllowed(s, [a, b, c]) <==>
            Allowed(s, a) && Allowed(Apply(s, a), b) && Allowed(Apply(Apply(s, a), b), c)
  {
    hide Apply, Allowed;
    assert [a, b, c][1..] == [b, c] && [b, c][1..] == [c] && [c][1..] == [];
    var s1 := Apply(s, a);
    var s2 := Apply(s1, b);
    assert Run(s2, [c]) == Run(Apply(s2, c), []) && AllAllowed(Apply(s2, c), []);
    assert AllAllowed(s2, [c]) == Allowed(s2, c);
    assert Run(s1, [b, c]) == Run(s2, [c]);
    assert AllAllowed(s1, [b, c]) == (Allowed(s1, b) && AllAllowed(s2, [c]));
  }

  /** So few nodes leave no room for hot or warm. */
  lemma AllCold(q: Lists, c: Config, x: Node)
    requires c.hotPercent == c.coldPercent == 30 && c.tailSize <= 1
    requires q.warm == [] && q.warmTail == [] && q.hot == [x] && q.cold == [] && |q.coldTail| <= 1
    ensures Rebalanced(q, c) == if |q.coldTail| < c.tailSize then Lists([], [], [], [], [x])
            else Lists([], [], [], [x], q.coldTail)
  {
    var q1 := ShrunkWarm(q, Share(WarmPercent(c), Count(q)));
    assert q1 == q;
    var q2 := ShrunkHot(q1, Share(c.hotPercent, Count(q1)));
    assert Share(30, 1) == Share(30, 2) == 0;
    assert q2 == Lists([], [], [], [x], q.coldTail);
    assert q2.cold[..0] == [] && q2.cold[0..] == [x] && q2.cold[..1] == [x] && q2.cold[1..] == [];
  }

  lemma AddOne(s: State, n: Node, now: Time)
    requires s.config.hotPercent == s.config.coldPercent == 30 && s.config.tailSize <= 1 && n !in s.linked
    requires s.lru.warm == [] && s.lru.warmTail == [] && s.lru.hot == [] && s.lru.cold == [] && |s.lru.coldTail| <= 1
    ensures var s' := Apply(s, Add(n, now));
            && s'.lru ==
                 (if |s.lru.coldTail| < s.config.tailSize then Lists([], [], [], [], [n])
                 else Lists([], [], [], [n], s.lru.coldTail))
            && s'.marks == Remark(s.marks, s'.lru) && s'.linked == s.linked + {n}
            && s'.time == s.time[n := now] && s'.config == s.config
  {
    hide Remark, Rebalanced;
    AllCold(LinkAtHead(s.lru, Hot, n), s.config, n);
  }

  const TRACKED := Config(30, 30, 1, 0, true, true, true)

  /** A run that ends with a cold node and an empty tail queue: the first node gets into the tail
      queue, the second one stays before it, and the first one is evicted. */
  lemma ShortTail()
    ensures var ops := [Add(1, 0), Add(2, 0), Evict(1)];
            CheckLruSizes(TRACKED) && AllAllowed(Fresh(TRACKED), ops) && !FullTails(Run(Fresh(TRACKED), ops))
  {
    hide Run, AllAllowed, Apply, FullTails, Remark;
    var s0 := Fresh(TRACKED);
    var s1 := Apply(s0, Add(1, 0));
    Unrolled(s0, Add(1, 0), Add(2, 0), Evict(1));
    AddOne(s0, 1, 0);
    AddOne(s1, 2, 0);
    EvictsTail(Apply(s1, Add(2, 0)), s1.marks, 2, 1);
  }

  lemma EvictsTail(s: State, m: Marks, x: Node, n: Node)
    requires s.config.tailSize == 1 && s.lru == Lists([], [], [], [x], [n]) && n != x
    requires s.marks == Remark(m, s.lru) && n in s.linked
    ensures !FullTails(Apply(s, Evict(n)))
  {
    assert LruTypeIn(s, n) == ColdTail;
    assert Erase([n], n) == [];
  }

  const UNTRACKED := Config(30, 30, 0, 0, true, true, false)

  /** A run after which a replacement breaks the container: node 1 keeps its cold bit when it is
      removed, and then takes the place of a warm node. */
  lemma StaleBit()
    ensures var ops := [Add(1, 0), Remove(1), Add(2, 0), Access(2, Read, 0)];
            var s := Run(Fresh(UNTRACKED), ops);
            && CheckLruSizes(UNTRACKED) && AllAllowed(Fresh(UNTRACKED), ops) && Valid(s)
            && !Allowed(s, Replace(2, 1)) && !Valid(Apply(s, Replace(2, 1)))
  {
    hide Run, AllAllowed, Apply, Remark, Valid, CheckLruSizes, LruTypeOf;
    AcceptedSizes(UNTRACKED);
    var s0 := Fresh(UNTRACKED);
    var s1 := Apply(s0, Add(1, 0));
    var s2 := Apply(s1, Remove(1));
    var s3 := Apply(s2, Add(2, 0));
    var ops := [Add(1, 0), Remove(1), Add(2, 0), Access(2, Read, 0)];
    UnrollOnce(s0, ops);
    assert ops[1..] == [Remove(1), Add(2, 0), Access(2, Read, 0)];
    Unrolled(s1, Remove(1), Add(2, 0), Access(2, Read, 0));
    AddOne(s0, 1, 0);
    RemoveOnly(s1, s0.marks, 1);
    AddOne(s2, 2, 0);
    KeptBit(s2.marks, s3.lru, 1);
    PromoteOnly(s3, s2.marks, 2, 1);
    FreshValid(UNTRACKED);
    RunValid(s0, ops);
    var s := Run(s0, ops);
    ReplacedValid(s, 2, 1);
    ReplaceBreaks(s, 2, 1);
  }

  lemma UnrollOnce(s: State, ops: seq<Op>)
    requires ops != []
    ensures Run(s, ops) == Run(Apply(s, ops[0]), ops[1..])
    ensures AllAllowed(s, ops) <==> Allowed(s, ops[0]) && AllAllowed(Apply(s, ops[0]), ops[1..])
  {
  }

  lemma RemoveOnly(s: State, m: Marks, n: Node)
    requires s.config.tailSize == 0 && s.lru == Lists([], [], [], [n], []) && s.marks == Remark(m, s.lru)
    requires n in s.linked
    ensures var s' := Apply(s, Remove(n));
            s'.lru == EMPTY && n in s'.marks.cold && s'.linked == s.linked - {n} && s'.config == s.config
  {
    assert LruTypeIn(s, n) == Cold;
    assert Erase([n], n) == [];
    assert Unlink(s.lru, Cold, n) == EMPTY;
    assert Rebalanced(EMPTY, s.config) == EMPTY;
  }

  lemma KeptBit(m: Marks, q: Lists, n: Node)
    requires n in m.cold && n !in Queued(q)
    ensures n in Remark(m, q).cold
  {
  }

  lemma PromoteOnly(s: State, m: Marks, n: Node, x: Node)
    requires s.config == UNTRACKED && s.lru == Lists([], [], [], [n], []) && s.marks == Remark(m, s.lru)
    requires n in s.linked && s.time == s.time[n := 0] && x != n && x in s.marks.cold
    ensures var s' := Apply(s, Access(n, Read, 0));
            s'.lru == Lists([n], [], [], [], []) && LruTypeIn(s', n) == Warm && x in s'.marks.cold
              && s'.linked == s.linked
  {
    assert LruTypeIn(s, n) == Cold;
    assert Erase([n], n) == [];
  }

  lemma ReplaceBreaks(s: State, a: Node, b: Node)
    requires LruTypeIn(s, a) == Warm && b in s.marks.cold && a in s.linked && b !in s.linked
    ensures !Allowed(s, Replace(a, b)) && Apply(s, Replace(a, b)) == Replaced(s, a, b)
  {
  }
}
