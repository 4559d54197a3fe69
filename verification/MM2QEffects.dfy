/** What each operation of the 2Q container does to the warm, hot and cold parts, each read with its
    tail queue, and the order in which an eviction walk meets the nodes. */
module MM2QEffects {
  import opened Basics
  import opened MM2Q
  import opened MM2QRuns
  import opened MM2QTransparency
  import opened MM2QRecency

  // ---------- the eviction walk ----------

  /** The queues in the order an eviction walk visits them. */
  const WALK := [ColdTail, Cold, Hot, WarmTail, Warm]

  /** A node in a queue visited earlier, or nearer to the tail of the same queue. */
  ghost predicate MetBefore(q: Lists, x: Node, y: Node) {
    exists k, l, i, j ::
      && 0 <= k <= l < |WALK| && 0 <= i < |Get(q, WALK[k])| && 0 <= j < |Get(q, WALK[l])|
      && Get(q, WALK[k])[i] == x && Get(q, WALK[l])[j] == y
      && (k == l ==> i > j)
  }

  /** Where the node at a position of the whole list sits: which queue of the walk, and at which index. */
  function Place(q: Lists, p: nat): (r: (nat, nat))
    requires p < |All(q)|
    ensures r.0 < |WALK| && r.1 < |Get(q, WALK[r.0])| && Get(q, WALK[r.0])[r.1] == All(q)[p]
  {
    var a := |q.warm|;
    var b := a + |q.warmTail|;
    var c := b + |q.hot|;
    var d := c + |q.cold|;
    if p < a then (4, p) else if p < b then (3, p - a) else if p < c then (2, p - b)
    else if p < d then (1, p - c) else (0, p - d)
  }

  lemma PlaceOrder(q: Lists, p: nat, r: nat)
    requires p < r < |All(q)|
    ensures MetBefore(q, All(q)[r], All(q)[p])
  {
    var (k, i) := Place(q, r);
    var (l, j) := Place(q, p);
    assert k <= l && (k == l ==> i > j);
  }

  lemma {:induction false} ReverseAt(s: seq<Node>, k: nat)
    requires k < |s|
    ensures |Reverse(s)| == |s| && Reverse(s)[k] == s[|s| - 1 - k]
  {
    if |s| > 1 {
      ReverseAt(s[1..], if k < |s| - 1 then k else 0);
    } else {
      assert Reverse(s[1..]) == [];
    }
  }

  lemma ReverseMembers(s: seq<Node>, n: Node)
    ensures |Reverse(s)| == |s|
    ensures n in Reverse(s) <==> n in s
  {
    if s != [] {
      ReverseAt(s, 0);
    }
    hide Reverse;
    var o := Reverse(s);
    if n in o {
      var k :| 0 <= k < |o| && o[k] == n;
      ReverseAt(s, k);
    }
    if n in s {
      var k :| 0 <= k < |s| && s[k] == n;
      ReverseAt(s, |s| - 1 - k);
    }
  }

  lemma AllQueued(q: Lists, n: Node)
    ensures n in All(q) <==> n in Queued(q)
  {
  }

  lemma WalkedBefore(q: Lists, i: nat, j: nat)
    requires i < j < |Reverse(All(q))|
    ensures MetBefore(q, Reverse(All(q))[i], Reverse(All(q))[j])
  {
    hide Reverse, MetBefore, All;
    var all := All(q);
    ReverseMembers(all, 0);
    ReverseAt(all, i);
    ReverseAt(all, j);
    PlaceOrder(q, |all| - 1 - j, |all| - 1 - i);
  }

  /** An eviction walk meets every linked node once: the cold tail first, then the cold queue, the
      hot queue, the warm tail and the warm queue, each from its tail to its head. */
  lemma WalkOrder(s: State)
    requires Valid(s)
    ensures var o := EvictionOrder(s);
            && Distinct(o) && (forall n :: n in o <==> n in s.linked)
            && (forall i, j :: 0 <= i < j < |o| ==> MetBefore(s.lru, o[i], o[j]))
  {
    hide Reverse, MetBefore, All, EachOnce, Queued, Remark;
    var q, o := s.lru, EvictionOrder(s);
    forall i, j | 0 <= i < j < |o| ensures MetBefore(q, o[i], o[j]) {
      WalkedBefore(q, i, j);
    }
    forall i, j | 0 <= i < j < |o| ensures o[i] != o[j] {
      WalkedBefore(q, i, j);
      NotBeforeItself(q, o[i]);
    }
    forall n ensures n in o <==> n in s.linked {
      AllQueued(q, n);
      ReverseMembers(All(q), n);
    }
  }

  lemma DistinctQueue(q: Lists, t: LruType, i: nat, j: nat)
    requires EachOnce(q) && i < j < |Get(q, t)|
    ensures Get(q, t)[i] != Get(q, t)[j]
  {
    hide Get, Times;
    var s := Get(q, t);
    if s[i] == s[j] {
      assert s == s[..j] + s[j..];
      assert s[i] in s[..j] && s[j] in s[j..];
      assert multiset(s)[s[i]] >= 2;
      assert Times(q, s[i]) <= 1;
      WithTimes(q, t, s, s[i]);
    }
  }

  lemma NotBeforeItself(q: Lists, x: Node)
    requires EachOnce(q)
    ensures !MetBefore(q, x, x)
  {
    hide Get, EachOnce;
    if MetBefore(q, x, x) {
      var k, l, i, j :| 0 <= k <= l < |WALK| && 0 <= i < |Get(q, WALK[k])| && 0 <= j < |Get(q, WALK[l])|
                        && Get(q, WALK[k])[i] == x && Get(q, WALK[l])[j] == x && (k == l ==> i > j);
      if k == l {
        DistinctQueue(q, WALK[k], j, i);
      } else {
        if WALK[k] == WALK[l] { WalkDistinct(k, l); }
        OneQueue(q, WALK[k], WALK[l], x);
      }
    }
  }

  lemma WalkDistinct(k: nat, l: nat)
    requires k < |WALK| && l < |WALK| && WALK[k] == WALK[l]
    ensures k == l
  {
  }

  /** By the nodes' own bits: a node whose queue comes earlier in the walk is met first. */
  lemma WalkByType(s: State, i: nat, j: nat, k: nat, l: nat)
    requires Valid(s) && i < |EvictionOrder(s)| && j < |EvictionOrder(s)| && k < |WALK| && l < |WALK|
    requires LruTypeIn(s, EvictionOrder(s)[i]) == WALK[k] && LruTypeIn(s, EvictionOrder(s)[j]) == WALK[l]
    requires k < l
    ensures i < j
  {
    hide EvictionOrder, Valid, Get, LruTypeOf;
    WalkOrder(s);
    var o := EvictionOrder(s);
    if j < i {
      assert MetBefore(s.lru, o[j], o[i]);
      var k', l', a, b :| 0 <= k' <= l' < |WALK| && 0 <= a < |Get(s.lru, WALK[k'])| && 0 <= b < |Get(s.lru, WALK[l'])|
                          && Get(s.lru, WALK[k'])[a] == o[j] && Get(s.lru, WALK[l'])[b] == o[i];
      BitsNameQueue(s, o[j], WALK[k']);
      BitsNameQueue(s, o[i], WALK[l']);
      WalkDistinct(k', l);
      WalkDistinct(l', k);
    }
    if i == j {
      WalkDistinct(k, l);
    }
  }

  // ---------- rebalancing ----------

  /** The queues hold these warm, hot and cold parts. */
  predicate Parts(q: Lists, w: seq<Node>, h: seq<Node>, c: seq<Node>) {
    q.warm + q.warmTail == w && q.hot == h && q.cold + q.coldTail == c
  }

  /** The first `i` warm and the first `j` hot nodes stay; the rest is put before the cold part, in
      order, the hot ones first. */
  predicate Demoted(q: Lists, w: seq<Node>, h: seq<Node>, c: seq<Node>, i: nat, j: nat) {
    i <= |w| && j <= |h| && Parts(q, w[..i], h[..j], h[j..] + (w[i..] + c))
  }

  /** A share is the given percentage, rounded down. */
  lemma ShareRounds(percent: nat, n: nat)
    ensures 100 * Share(percent, n) <= percent * n < 100 * Share(percent, n) + 100
  {
  }

  /** The three parts rebalanced to the configured percentages of all their nodes. */
  predicate Settled(q: Lists, w: seq<Node>, h: seq<Node>, c: seq<Node>, config: Config) {
    var n := |w| + |h| + |c|;
    && config.hotPercent + config.coldPercent <= 100
    && Demoted(q, w, h, c, Min(|w|, Share(100 - config.hotPercent - config.coldPercent, n)),
               Min(|h|, Share(config.hotPercent, n)))
  }

  lemma CutParts(q: Lists, w: nat, h: nat)
    requires q.warmTail == [] && q.coldTail == []
    ensures Demoted(ShrunkHot(ShrunkWarm(q, w), h), q.warm, q.hot, q.cold, Min(|q.warm|, w), Min(|q.hot|, h))
  {
    var i := Min(|q.warm|, w);
    assert q.warm + [] == q.warm;
    assert q.warm[..i] + [] == q.warm[..i];
    var q1 := ShrunkWarm(q, w);
    assert q1.warm == q.warm[..i] && q1.warmTail == [] && q1.cold == q.warm[i..] + q.cold && q1.hot == q.hot;
    var q2 := ShrunkHot(q1, h);
    assert q2.cold + [] == q2.cold;
  }

  lemma RebalancedParts(q: Lists, c: Config)
    requires CheckLruSizes(c)
    ensures Settled(Rebalanced(q, c), q.warm + q.warmTail, q.hot, q.cold + q.coldTail, c)
  {
    AcceptedSizes(c);
    hide Share, CutWarm, CutHot, WarmPercent, CheckLruSizes, ShrunkWarm, ShrunkHot, AdjustedColdTail, AdjustedWarmTail;
    var m, n := Merged(q), Count(q);
    var w, h := Share(WarmPercent(c), n), Share(c.hotPercent, n);
    MergedRebalanced(q, c);
    MergedCount(q, c);
    ShrunkSizes(m, w, h);
    NothingToAdjust(ShrunkHot(ShrunkWarm(m, w), h));
    CutParts(m, w, h);
    MergedParts(Rebalanced(q, c), ShrunkHot(ShrunkWarm(m, w), h));
  }

  lemma MergedParts(q: Lists, m: Lists)
    requires Merged(q) == m
    ensures m.warm + m.warmTail == q.warm + q.warmTail && m.hot == q.hot && m.cold + m.coldTail == q.cold + q.coldTail
  {
  }

  // ---------- the operations ----------

  /** A new node becomes the most recent hot one, and the queues are rebalanced. */
  lemma AddEffect(s: State, n: Node, now: Time)
    requires Valid(s)
    ensures var q, s' := s.lru, Apply(s, Add(n, now));
            if n in s.linked then s' == s
            else
              && Settled(s'.lru, q.warm + q.warmTail, [n] + q.hot, q.cold + q.coldTail, s.config)
              && s'.linked == s.linked + {n} && s'.time == s.time[n := now] && s'.config == s.config
  {
    hide Rebalanced, Remark, Settled, CheckLruSizes, EachOnce;
    if n !in s.linked {
      RebalancedParts(LinkAtHead(s.lru, Hot, n), s.config);
    }
  }

  /** Taking a node out of its queue takes it out of its part and leaves the other parts alone. */
  lemma UnlinkParts(s: State, n: Node)
    requires Valid(s) && n in s.linked
    ensures var q := s.lru;
            Parts(Unlink(q, LruTypeIn(s, n), n),
                  Erase(q.warm + q.warmTail, n), Erase(q.hot, n), Erase(q.cold + q.coldTail, n))
  {
    hide Remark, LruTypeOf, Erase;
    var q, t := s.lru, LruTypeIn(s, n);
    BitsNameQueue(s, n, t);
    MergedUnlink(q, t, n);
    BitsNameQueue(s, n, Warm);
    BitsNameQueue(s, n, WarmTail);
    BitsNameQueue(s, n, Hot);
    BitsNameQueue(s, n, Cold);
    BitsNameQueue(s, n, ColdTail);
    if n !in q.warm + q.warmTail { EraseNothing(q.warm + q.warmTail, n); }
    if n !in q.hot { EraseNothing(q.hot, n); }
    if n !in q.cold + q.coldTail { EraseNothing(q.cold + q.coldTail, n); }
  }

  /** A removed node leaves its part, the others keep their order, and only a removal outside
      eviction rebalances. */
  lemma RemoveEffect(s: State, n: Node, evicting: bool)
    requires Valid(s)
    ensures var q, s' := s.lru, Apply(s, if evicting then Evict(n) else Remove(n));
            var w, h, c := Erase(q.warm + q.warmTail, n), Erase(q.hot, n), Erase(q.cold + q.coldTail, n);
            if n !in s.linked then s' == s
            else
              && (if evicting then Parts(s'.lru, w, h, c) else Settled(s'.lru, w, h, c, s.config))
              && s'.linked == s.linked - {n} && s'.time == s.time && s'.config == s.config
  {
    hide Rebalanced, Remark, Settled, LruTypeOf, Unlink, Erase, CheckLruSizes, EachOnce;
    if n in s.linked {
      UnlinkParts(s, n);
      RebalancedParts(Unlink(s.lru, LruTypeIn(s, n), n), s.config);
    }
  }

  /** An access counts when its mode is enabled and the refresh time has passed since the last one,
      in 32-bit seconds. A hot node becomes the most recent hot one, any other node the most recent
      warm one, and the queues are rebalanced only when it came from the cold part. */
  lemma AccessEffect(s: State, n: Node, mode: Mode, now: Time)
    requires Valid(s)
    ensures var q, s' := s.lru, Apply(s, Access(n, mode, now));
            var w, h, c := Erase(q.warm + q.warmTail, n), Erase(q.hot, n), Erase(q.cold + q.coldTail, n);
            if n !in s.linked || (mode.Read? && !s.config.updateOnRead) || (mode.Write? && !s.config.updateOnWrite)
               || now < (s.time[n] + s.config.refreshTime) % 0x1_0000_0000 then s' == s
            else
              && (if n in q.hot then Parts(s'.lru, w, [n] + h, c)
                  else if (n in q.cold || n in q.coldTail) && s.config.rebalanceOnAccess then
                    Settled(s'.lru, [n] + w, h, c, s.config)
                  else Parts(s'.lru, [n] + w, h, c))
              && s'.linked == s.linked && s'.time == s.time[n := now] && s'.config == s.config
  {
    hide Valid, Rebalanced, Remark, Settled, Parts, LruTypeOf, Unlink, Erase, LinkAtHead;
    if n in s.linked {
      HasTime(s, n);
      PromotedParts(s, n);
      InPart(s, n);
    }
  }

  lemma HasTime(s: State, n: Node)
    requires Valid(s) && n in s.linked
    ensures n in s.time
  {
  }

  lemma InPart(s: State, n: Node)
    requires Valid(s) && n in s.linked
    ensures n in s.lru.hot <==> LruTypeIn(s, n) == Hot
    ensures n in s.lru.cold || n in s.lru.coldTail <==> LruTypeIn(s, n) == Cold || LruTypeIn(s, n) == ColdTail
  {
    BitsNameQueue(s, n, Hot);
    BitsNameQueue(s, n, Cold);
    BitsNameQueue(s, n, ColdTail);
  }

  lemma PromotedParts(s: State, n: Node)
    requires Valid(s) && n in s.linked
    ensures var q, t := s.lru, LruTypeIn(s, n);
            var w, h, c := Erase(q.warm + q.warmTail, n), Erase(q.hot, n), Erase(q.cold + q.coldTail, n);
            && Parts(LinkAtHead(Unlink(q, t, n), Hot, n), w, [n] + h, c)
            && Parts(LinkAtHead(Unlink(q, t, n), Warm, n), [n] + w, h, c)
            && Settled(Rebalanced(LinkAtHead(Unlink(q, t, n), Warm, n), s.config), [n] + w, h, c, s.config)
  {
    hide Rebalanced, Remark, Settled, LruTypeOf, Unlink, Erase, CheckLruSizes;
    UnlinkParts(s, n);
    var q := Unlink(s.lru, LruTypeIn(s, n), n);
    RebalancedParts(LinkAtHead(q, Warm, n), s.config);
    assert [n] + q.warm + q.warmTail == [n] + (q.warm + q.warmTail);
  }

  /** `b` stands where `a` stood; the other positions are unchanged. */
  ghost predicate Swapped(s: seq<Node>, s': seq<Node>, a: Node, b: Node) {
    |s'| == |s| && forall i :: 0 <= i < |s| ==> s'[i] == if s[i] == a then b else s[i]
  }

  lemma SubstSwaps(s: seq<Node>, a: Node, b: Node)
    ensures Swapped(s, Subst(s, a, b), a, b)
  {
    SubstAt(s, a, b);
  }

  /** A replacement takes over the place and the time of the node it replaces, in whichever queue
      that is; it happens exactly when the old node is linked and the new one is not. */
  lemma ReplaceEffect(s: State, a: Node, b: Node)
    requires Valid(s)
    ensures var q, s' := s.lru, Apply(s, Replace(a, b));
            if a !in s.linked || b in s.linked then s' == s
            else
              && Swapped(q.warm, s'.lru.warm, a, b) && Swapped(q.warmTail, s'.lru.warmTail, a, b)
              && Swapped(q.hot, s'.lru.hot, a, b)
              && Swapped(q.cold, s'.lru.cold, a, b) && Swapped(q.coldTail, s'.lru.coldTail, a, b)
              && s'.linked == s.linked - {a} + {b} && s'.time == s.time[b := s.time[a]] && s'.config == s.config
  {
    hide Subst, Swapped, Remark, EachOnce, LruTypeOf, AddBits;
    if a in s.linked && b !in s.linked {
      HasTime(s, a);
      SwappedQueue(s, a, b, Warm);
      SwappedQueue(s, a, b, WarmTail);
      SwappedQueue(s, a, b, Hot);
      SwappedQueue(s, a, b, Cold);
      SwappedQueue(s, a, b, ColdTail);
      hide With;
    }
  }

  lemma SwappedQueue(s: State, a: Node, b: Node, u: LruType)
    requires Valid(s) && a in s.linked && b !in s.linked
    ensures Swapped(Get(s.lru, u), Get(Replaced(s, a, b).lru, u), a, b)
  {
    HasTime(s, a);
    hide Valid, LruTypeOf, AddBits, Subst;
    var t := LruTypeIn(s, a);
    SubstSwaps(Get(s.lru, t), a, b);
    BitsNameQueue(s, a, u);
    if u != t {
      assert a !in Get(s.lru, u) && Get(Replaced(s, a, b).lru, u) == Get(s.lru, u);
    }
  }

  /** A configuration is taken as it is unless it turns tail tracking on or off; the queues stay as
      they are until the next rebalancing. */
  lemma ReconfigureEffect(s: State, c: Config)
    ensures Apply(s, SetConfig(c)) ==
            if (s.config.tailSize == 0) == (c.tailSize == 0) then State(s.lru, s.marks, s.linked, s.time, c) else s
  {
  }
}
