/** Tracking the tails changes nothing that eviction can see: the five-queue container, read with
    each tail queue appended to its queue, behaves step by step like the same container without
    tail tracking. */
module MM2QTransparency {
  import opened Basics
  import opened MM2Q
  import opened MM2QRuns

  /** The nodes in the order an eviction walk meets them. */
  function EvictionOrder(s: State): seq<Node> {
    Reverse(All(s.lru))
  }

  function Reverse(s: seq<Node>): seq<Node> {
    if s == [] then [] else Reverse(s[1..]) + [s[0]]
  }

  // ---------- the same container without tails ----------

  function Merged(q: Lists): Lists {
    Lists(q.warm + q.warmTail, [], q.hot, q.cold + q.coldTail, [])
  }

  function Untailed(c: Config): Config {
    c.(tailSize := 0)
  }

  function PlainMarks(m: Marks): Marks {
    m.(tail := {})
  }

  function PlainType(t: LruType): LruType {
    match t
    case WarmTail => Warm
    case ColdTail => Cold
    case _ => t
  }

  function Plain(s: State): State {
    State(Merged(s.lru), PlainMarks(s.marks), s.linked, s.time, Untailed(s.config))
  }

  function PlainOp(op: Op): Op {
    match op
    case SetConfig(c) => SetConfig(Untailed(c))
    case _ => op
  }

  function PlainOps(ops: seq<Op>): seq<Op> {
    if ops == [] then [] else [PlainOp(ops[0])] + PlainOps(ops[1..])
  }

  // ---------- the queues ----------

  lemma MergedShrunk(q: Lists, w: nat, h: nat)
    ensures Merged(ShrunkHot(ShrunkWarm(q, w), h)) == ShrunkHot(ShrunkWarm(Merged(q), w), h)
  {
    MergedCutWarm(q, Min(|q.warm| + |q.warmTail|, w));
    hide CutWarm;
    var q1 := ShrunkWarm(q, w);
    assert Merged(ShrunkHot(q1, h)).cold == ShrunkHot(Merged(q1), h).cold;
  }

  lemma MergedAdjusted(q: Lists, tailSize: nat)
    ensures Merged(AdjustedWarmTail(AdjustedColdTail(q, tailSize), tailSize)) == Merged(q)
  {
    var q1 := AdjustedColdTail(q, tailSize);
    assert Merged(q1).cold == Merged(q).cold;
    assert Merged(AdjustedWarmTail(q1, tailSize)).warm == Merged(q1).warm;
  }

  lemma NothingToAdjust(q: Lists)
    ensures AdjustedWarmTail(AdjustedColdTail(q, 0), 0) == q
  {
  }

  lemma MergedRebalanced(q: Lists, c: Config)
    ensures Merged(Rebalanced(q, c)) == Rebalanced(Merged(q), Untailed(c))
  {
    hide ShrunkWarm, ShrunkHot, AdjustedWarmTail, AdjustedColdTail, Share, Count, Merged, WarmPercent;
    var n := Count(q);
    var w, h := Share(WarmPercent(c), n), Share(c.hotPercent, n);
    ShrunkSizes(q, w, h);
    ShrunkSizes(Merged(q), w, h);
    MergedShrunk(q, w, h);
    MergedCount(q, c);
    MergedAdjusted(ShrunkHot(ShrunkWarm(q, w), h), c.tailSize);
    NothingToAdjust(ShrunkHot(ShrunkWarm(Merged(q), w), h));
  }

  lemma MergedCount(q: Lists, c: Config)
    ensures Count(Merged(q)) == Count(q) && WarmPercent(Untailed(c)) == WarmPercent(c)
  {
  }

  lemma MergedCutWarm(q: Lists, k: nat)
    requires k <= |q.warm| + |q.warmTail|
    ensures Merged(CutWarm(q, k)) == CutWarm(Merged(q), k)
  {
    var w := Min(k, |q.warm|);
    assert (q.warm + q.warmTail)[..k] == q.warm[..w] + q.warmTail[..k - w];
  }

  lemma {:induction false} EraseAppend(a: seq<Node>, b: seq<Node>, n: Node)
    ensures n in a ==> Erase(a + b, n) == Erase(a, n) + b
    ensures n !in a ==> Erase(a + b, n) == a + Erase(b, n)
  {
    if a == [] {
      assert a + b == b;
    } else {
      var rest := a[1..];
      assert a + b == [a[0]] + (rest + b) && a == [a[0]] + rest;
      if a[0] != n {
        EraseAppend(rest, b, n);
        EraseSkips(a[0], rest, n);
        EraseSkips(a[0], rest + b, n);
        hide Erase;
        assert n in a <==> n in rest;
        assert [a[0]] + (Erase(rest, n) + b) == [a[0]] + Erase(rest, n) + b;
        assert [a[0]] + (rest + Erase(b, n)) == a + Erase(b, n);
      } else {
        assert (a + b)[1..] == rest + b;
      }
    }
  }

  lemma EraseSkips(x: Node, s: seq<Node>, n: Node)
    requires x != n
    ensures Erase([x] + s, n) == [x] + Erase(s, n)
  {
    assert ([x] + s)[1..] == s;
  }

  lemma MergedUnlink(q: Lists, t: LruType, n: Node)
    requires EachOnce(q) && n in Get(q, t)
    ensures Merged(Unlink(q, t, n)) == Unlink(Merged(q), PlainType(t), n)
  {
    EraseAppend(q.warm, q.warmTail, n);
    EraseAppend(q.cold, q.coldTail, n);
    if t == WarmTail { OneQueue(q, t, Warm, n); }
    if t == ColdTail { OneQueue(q, t, Cold, n); }
  }

  lemma {:induction false} SubstAppend(s: seq<Node>, r: seq<Node>, a: Node, b: Node)
    ensures Subst(s + r, a, b) == Subst(s, a, b) + Subst(r, a, b)
    ensures a !in s ==> Subst(s, a, b) == s
    ensures a !in r ==> Subst(r, a, b) == r
    decreases |s| + |r|
  {
    if s != [] {
      assert (s + r)[1..] == s[1..] + r;
      SubstAppend(s[1..], r, a, b);
    } else {
      assert s + r == r;
      if r != [] {
        SubstAppend([], r[1..], a, b);
      }
    }
  }

  lemma MergedSwap(q: Lists, t: LruType, a: Node, b: Node)
    requires EachOnce(q) && a in Get(q, t)
    ensures var p := Merged(q);
            Merged(With(q, t, Subst(Get(q, t), a, b))) == With(p, PlainType(t), Subst(Get(p, PlainType(t)), a, b))
  {
    SubstAppend(q.warm, q.warmTail, a, b);
    SubstAppend(q.cold, q.coldTail, a, b);
    if t != Warm { OneQueue(q, t, Warm, a); }
    if t != WarmTail { OneQueue(q, t, WarmTail, a); }
    if t != Cold { OneQueue(q, t, Cold, a); }
    if t != ColdTail { OneQueue(q, t, ColdTail, a); }
  }

  lemma PlainRemark(m: Marks, q: Lists)
    ensures PlainMarks(Remark(m, q)) == Remark(PlainMarks(m), Merged(q))
  {
    assert Queued(Merged(q)) == Queued(q);
    assert Nodes(Merged(q).cold) == Nodes(q.cold) + Nodes(q.coldTail);
  }

  lemma PlainRequeue(s: State, q: Lists, rebalance: bool)
    ensures Plain(Requeue(s, if rebalance then Rebalanced(q, s.config) else q)) ==
            Requeue(Plain(s), if rebalance then Rebalanced(Merged(q), Untailed(s.config)) else Merged(q))
  {
    MergedRebalanced(q, s.config);
    PlainRemark(s.marks, if rebalance then Rebalanced(q, s.config) else q);
    hide Rebalanced, Remark;
  }

  // ---------- the operations ----------

  /** Nobody asks for tail tracking to be switched off. */
  predicate KeepsTracking(ops: seq<Op>) {
    forall i :: 0 <= i < |ops| && ops[i].SetConfig? ==> ops[i].c.tailSize > 0
  }

  /** One step on five queues is the same step on three. */
  lemma StepTransparent(s: State, op: Op)
    requires Valid(s) && s.config.tailSize > 0 && Allowed(s, op) && KeepsTracking([op])
    ensures Plain(Apply(s, op)) == Apply(Plain(s), PlainOp(op))
  {
    hide Rebalanced, Remark, Unlink, Subst;
    assert op == [op][0];
    match op
    case Add(n, now) =>
      PlainRequeue(s, LinkAtHead(s.lru, Hot, n), true);
    case Remove(n) =>
      if n in s.linked { PlainRemoved(s, n, true); }
    case Evict(n) =>
      if n in s.linked { PlainRemoved(s, n, false); }
    case Replace(a, b) =>
      if a in s.linked && b !in s.linked { PlainReplaced(s, a, b); }
    case Access(n, mode, now) =>
      if Due(s, n, mode, now) { PlainAccessed(s, n, mode, now); }
    case SetConfig(c) =>
  }

  lemma PlainTypeOf(s: State, n: Node)
    requires s.config.tailSize > 0
    ensures LruTypeIn(Plain(s), n) == PlainType(LruTypeIn(s, n))
  {
  }

  lemma PlainRemoved(s: State, n: Node, rebalance: bool)
    requires Valid(s) && s.config.tailSize > 0 && n in s.linked
    ensures Plain(Removed(s, n, rebalance)) == Removed(Plain(s), n, rebalance)
  {
    hide Unlink, Rebalanced, Remark, LruTypeOf, PlainType;
    var t := LruTypeIn(s, n);
    BitsNameQueue(s, n, t);
    PlainTypeOf(s, n);
    MergedUnlink(s.lru, t, n);
    PlainRequeue(s, Unlink(s.lru, t, n), rebalance);
    hide Valid;
  }

  lemma PlainReplaced(s: State, a: Node, b: Node)
    requires Valid(s) && s.config.tailSize > 0 && a in s.linked && b !in s.linked
    requires Fits(s.marks, b, LruTypeIn(s, a))
    ensures Plain(Replaced(s, a, b)) == Replaced(Plain(s), a, b)
  {
    var t := LruTypeIn(s, a);
    BitsNameQueue(s, a, t);
    MergedSwap(s.lru, t, a, b);
    hide Subst;
  }

  lemma PlainAccessed(s: State, n: Node, mode: Mode, now: Time)
    requires Valid(s) && s.config.tailSize > 0 && Due(s, n, mode, now)
    ensures Plain(Accessed(s, n, mode, now)) == Accessed(Plain(s), n, mode, now)
  {
    hide Unlink, Rebalanced, Remark, LruTypeOf, AcceptsMode, LinkAtHead, Merged, Valid;
    var t := LruTypeIn(s, n);
    var target := if t.Hot? then Hot else Warm;
    PlainTypeOf(s, n);
    PlainPromoted(s, n);
    var q := Unlink(s.lru, t, n);
    PlainRequeue(s, LinkAtHead(q, target, n), (t.Cold? || t.ColdTail?) && s.config.rebalanceOnAccess);
    assert AcceptsMode(Plain(s).config, mode) == AcceptsMode(s.config, mode) by { SameModes(s.config, mode); }
  }

  lemma PlainPromoted(s: State, n: Node)
    requires Valid(s) && n in s.linked
    ensures var t := LruTypeIn(s, n);
            var target := if t.Hot? then Hot else Warm;
            Merged(LinkAtHead(Unlink(s.lru, t, n), target, n)) ==
              LinkAtHead(Unlink(Merged(s.lru), PlainType(t), n), target, n)
  {
    hide Unlink, Remark, LruTypeOf;
    var t := LruTypeIn(s, n);
    BitsNameQueue(s, n, t);
    MergedUnlink(s.lru, t, n);
    MergedLink(Unlink(s.lru, t, n), if t.Hot? then Hot else Warm, n);
  }

  lemma MergedLink(q: Lists, t: LruType, n: Node)
    requires t.Hot? || t.Warm?
    ensures Merged(LinkAtHead(q, t, n)) == LinkAtHead(Merged(q), t, n)
  {
    assert [n] + q.warm + q.warmTail == [n] + (q.warm + q.warmTail);
  }

  lemma SameModes(c: Config, mode: Mode)
    ensures AcceptsMode(Untailed(c), mode) == AcceptsMode(c, mode)
  {
  }

  // ---------- whole runs ----------

  lemma StillTracking(s: State, op: Op)
    requires s.config.tailSize > 0
    ensures Apply(s, op).config.tailSize > 0
  {
  }

  lemma {:induction false} RunTransparent(s: State, ops: seq<Op>)
    requires Valid(s) && s.config.tailSize > 0 && AllAllowed(s, ops) && KeepsTracking(ops)
    ensures Valid(Run(s, ops)) && Plain(Run(s, ops)) == Run(Plain(s), PlainOps(ops))
    decreases |ops|
  {
    if ops != [] {
      StepTransparent(s, ops[0]);
      StepValid(s, ops[0]);
      StillTracking(s, ops[0]);
      hide Valid, Plain, Apply, Allowed;
      RunTransparent(Apply(s, ops[0]), ops[1..]);
      assert PlainOps(ops)[1..] == PlainOps(ops[1..]);
    }
  }

  /** Every run evicts in the same order with tail tracking as without it. */
  lemma SameEvictionOrder(c: Config, ops: seq<Op>)
    requires CheckLruSizes(c) && c.tailSize > 0
    requires AllAllowed(Fresh(c), ops) && KeepsTracking(ops)
    ensures EvictionOrder(Run(Fresh(c), ops)) == EvictionOrder(Run(Fresh(Untailed(c)), PlainOps(ops)))
  {
    hide Run, PlainOps, Reverse, AllAllowed, Valid;
    var s := Fresh(c);
    FreshValid(c);
    RunTransparent(s, ops);
    assert Plain(s) == Fresh(Untailed(c));
    var q := Run(s, ops).lru;
    assert All(Merged(q)) == All(q);
  }
}
