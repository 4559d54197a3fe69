/** The 2Q eviction container: hot, warm and cold queues, the last two with an optional tail queue
    of their own. A queue is the sequence of its nodes from head to tail. */
module MM2Q {
  import opened Basics

  type Node = int

  const TWO_64 := 0x1_0000_0000_0000_0000

  type Size = n: int | 0 <= n < TWO_64

  datatype LruType = Warm | WarmTail | Hot | Cold | ColdTail

  datatype Config = Config(
    hotPercent: Size, coldPercent: Size, tailSize: nat, refreshTime: Time,
    updateOnWrite: bool, updateOnRead: bool, rebalanceOnAccess: bool)

  // ---------- configuration ----------

  /** Unsigned 64-bit subtraction wraps around. */
  function WarmPercent(c: Config): Size {
    (100 - c.hotPercent - c.coldPercent) % TWO_64
  }

  /** Whether the configured sizes are accepted. */
  predicate CheckLruSizes(c: Config) {
    var warm := WarmPercent(c);
    if c.hotPercent == 100 then c.coldPercent == 0 || warm == 0
    else
      && 0 < c.hotPercent <= 100
      && 0 < c.coldPercent < 100
      && 0 < warm < 100
  }

  /** Wrap-around lets nothing odd through: either everything is hot, or all three shares are
      positive and add up to 100. */
  lemma AcceptedSizes(c: Config)
    ensures CheckLruSizes(c) <==>
            || (c.hotPercent == 100 && c.coldPercent == 0)
            || (c.hotPercent >= 1 && c.coldPercent >= 1 && c.hotPercent + c.coldPercent <= 99)
    ensures CheckLruSizes(c) ==> WarmPercent(c) + c.hotPercent + c.coldPercent == 100
  {
    var d := 100 - c.hotPercent - c.coldPercent;
    if d >= 0 {
      assert d % TWO_64 == d;
    } else if d >= -TWO_64 {
      assert d % TWO_64 == d + TWO_64;
    }
  }

  // ---------- the five queues ----------

  datatype Lists = Lists(warm: seq<Node>, warmTail: seq<Node>, hot: seq<Node>, cold: seq<Node>, coldTail: seq<Node>)

  const EMPTY := Lists([], [], [], [], [])

  function Get(q: Lists, t: LruType): seq<Node> {
    match t
    case Warm => q.warm
    case WarmTail => q.warmTail
    case Hot => q.hot
    case Cold => q.cold
    case ColdTail => q.coldTail
  }

  function With(q: Lists, t: LruType, s: seq<Node>): Lists {
    match t
    case Warm => q.(warm := s)
    case WarmTail => q.(warmTail := s)
    case Hot => q.(hot := s)
    case Cold => q.(cold := s)
    case ColdTail => q.(coldTail := s)
  }

  /** All nodes, in list order; eviction walks this sequence backwards. */
  function All(q: Lists): seq<Node> {
    q.warm + q.warmTail + q.hot + q.cold + q.coldTail
  }

  function Count(q: Lists): nat {
    |q.warm| + |q.warmTail| + |q.hot| + |q.cold| + |q.coldTail|
  }

  function Min(a: int, b: int): int {
    if a <= b then a else b
  }

  /** The warm part cut down to its first `k` nodes, the rest put in order before the cold queue. */
  function CutWarm(q: Lists, k: nat): Lists
    requires k <= |q.warm| + |q.warmTail|
  {
    var w := Min(k, |q.warm|);
    q.(warm := q.warm[..w], warmTail := q.warmTail[..k - w], cold := (q.warm + q.warmTail)[k..] + q.cold)
  }

  function CutHot(q: Lists, k: nat): Lists
    requires k <= |q.hot|
  {
    q.(hot := q.hot[..k], cold := q.hot[k..] + q.cold)
  }

  /** The last `k` nodes of the cold queue put in order before its tail queue. */
  function FillColdTail(q: Lists, k: nat): Lists
    requires k <= |q.cold|
  {
    q.(cold := q.cold[..|q.cold| - k], coldTail := q.cold[|q.cold| - k..] + q.coldTail)
  }

  function FillWarmTail(q: Lists, k: nat): Lists
    requires k <= |q.warm|
  {
    q.(warm := q.warm[..|q.warm| - k], warmTail := q.warm[|q.warm| - k..] + q.warmTail)
  }

  /** How many of `n` nodes join a tail queue of length `tail`. */
  function Joining(n: nat, tail: nat, tailSize: nat): nat {
    if tail >= tailSize then 0 else Min(n, tailSize - tail)
  }

  function Share(percent: nat, n: nat): nat {
    percent * n / 100
  }

  function ShrunkWarm(q: Lists, limit: nat): Lists {
    CutWarm(q, Min(|q.warm| + |q.warmTail|, limit))
  }

  function ShrunkHot(q: Lists, limit: nat): Lists {
    CutHot(q, Min(|q.hot|, limit))
  }

  function AdjustedColdTail(q: Lists, tailSize: nat): Lists {
    FillColdTail(q, Joining(|q.cold|, |q.coldTail|, tailSize))
  }

  function AdjustedWarmTail(q: Lists, tailSize: nat): Lists {
    FillWarmTail(q, Joining(|q.warm|, |q.warmTail|, tailSize))
  }

  /** What rebalancing leaves. */
  function Rebalanced(q: Lists, c: Config): Lists {
    var q1 := ShrunkWarm(q, Share(WarmPercent(c), Count(q)));
    var q2 := ShrunkHot(q1, Share(c.hotPercent, Count(q1)));
    AdjustedWarmTail(AdjustedColdTail(q2, c.tailSize), c.tailSize)
  }

  // ---------- node flags ----------

  /** Which nodes carry the hot, cold and tail bits. */
  datatype Marks = Marks(hot: set<Node>, cold: set<Node>, tail: set<Node>)

  function LruTypeOf(m: Marks, c: Config, n: Node): LruType {
    var inTail := c.tailSize > 0 && n in m.tail;
    if n in m.hot then Hot
    else if n in m.cold then if inTail then ColdTail else Cold
    else if inTail then WarmTail else Warm
  }

  function Nodes(s: seq<Node>): set<Node> {
    set n | n in s
  }

  function Queued(q: Lists): set<Node> {
    Nodes(q.warm) + Nodes(q.warmTail) + Nodes(q.hot) + Nodes(q.cold) + Nodes(q.coldTail)
  }

  /** The bits of every queued node overwritten by where it is queued. */
  function Remark(m: Marks, q: Lists): Marks {
    Marks(
      (m.hot - Queued(q)) + Nodes(q.hot),
      (m.cold - Queued(q)) + Nodes(q.cold) + Nodes(q.coldTail),
      (m.tail - Queued(q)) + Nodes(q.warmTail) + Nodes(q.coldTail))
  }

  // ---------- the container as a value ----------

  datatype State = State(lru: Lists, marks: Marks, linked: set<Node>, time: map<Node, Time>, config: Config)

  /** How often a node occurs in the five queues. */
  function Times(q: Lists, n: Node): nat {
    multiset(q.warm)[n] + multiset(q.warmTail)[n] + multiset(q.hot)[n] + multiset(q.cold)[n] + multiset(q.coldTail)[n]
  }

  ghost predicate EachOnce(q: Lists) {
    forall n :: Times(q, n) <= 1
  }

  /** Every linked node sits in exactly one queue, the one its bits name. */
  ghost predicate Valid(s: State) {
    && EachOnce(s.lru)
    && s.linked == Queued(s.lru)
    && s.linked <= s.time.Keys
    && s.marks == Remark(s.marks, s.lru)
    && (s.config.tailSize == 0 ==> s.lru.warmTail == [] && s.lru.coldTail == [])
    && CheckLruSizes(s.config)
  }

  // ---------- one node changing queues ----------

  lemma OneQueue(q: Lists, t: LruType, u: LruType, n: Node)
    requires EachOnce(q) && n in Get(q, t) && t != u
    ensures n !in Get(q, u)
  {
    assert Times(q, n) <= 1;
  }

  /** The bits a node has in queue `t`. */
  function SetBits(m: Marks, n: Node, t: LruType): Marks {
    Marks(
      if t.Hot? then m.hot + {n} else m.hot - {n},
      if t.Cold? || t.ColdTail? then m.cold + {n} else m.cold - {n},
      if t.WarmTail? || t.ColdTail? then m.tail + {n} else m.tail - {n})
  }

  function Last(s: seq<Node>): Node
    requires s != []
  {
    s[|s| - 1]
  }

  function DropTail(q: Lists, t: LruType): Lists
    requires Get(q, t) != []
  {
    With(q, t, Get(q, t)[..|Get(q, t)| - 1])
  }

  function LinkAtHead(q: Lists, t: LruType, n: Node): Lists {
    With(q, t, [n] + Get(q, t))
  }

  /** The last node of queue `t` moved to the head of queue `u`. */
  function Shift(q: Lists, t: LruType, u: LruType): Lists
    requires Get(q, t) != []
  {
    LinkAtHead(DropTail(q, t), u, Last(Get(q, t)))
  }

  lemma DropTailTimes(q: Lists, t: LruType, x: Node)
    requires Get(q, t) != []
    ensures Times(DropTail(q, t), x) == Times(q, x) - if x == Last(Get(q, t)) then 1 else 0
  {
    var s := Get(q, t);
    assert s == s[..|s| - 1] + [Last(s)];
  }

  lemma LinkAtHeadTimes(q: Lists, t: LruType, n: Node, x: Node)
    ensures Times(LinkAtHead(q, t, n), x) == Times(q, x) + if x == n then 1 else 0
  {
    assert multiset([n] + Get(q, t)) == multiset{n} + multiset(Get(q, t));
  }

  lemma ShiftTimes(q: Lists, t: LruType, u: LruType, x: Node)
    requires Get(q, t) != []
    ensures Times(Shift(q, t, u), x) == Times(q, x)
  {
    DropTailTimes(q, t, x);
    LinkAtHeadTimes(DropTail(q, t), u, Last(Get(q, t)), x);
  }

  lemma ShiftKeepsDistinct(q: Lists, t: LruType, u: LruType)
    requires EachOnce(q) && Get(q, t) != []
    ensures EachOnce(Shift(q, t, u))
  {
    forall x ensures Times(Shift(q, t, u), x) <= 1 {
      ShiftTimes(q, t, u, x);
      hide Times, Shift;
    }
  }

  /** The node is in queue `u` now, and the others are where they were. */
  lemma ShiftPlace(q: Lists, t: LruType, u: LruType, v: LruType, x: Node)
    requires EachOnce(q) && Get(q, t) != []
    ensures x in Get(Shift(q, t, u), v) <==> if x == Last(Get(q, t)) then v == u else x in Get(q, v)
  {
    var s := Get(q, t);
    var n := Last(s);
    var q' := Shift(q, t, u);
    ShiftKeepsDistinct(q, t, u);
    assert s == s[..|s| - 1] + [n];
    assert Get(q', u) == [n] + Get(DropTail(q, t), u);
    if x == n && v != u {
      OneQueue(q', u, v, n);
    }
  }

  ghost predicate Moves(q: Lists, q': Lists, n: Node, u: LruType, x: Node) {
    && (x in q'.warm <==> if x == n then u == Warm else x in q.warm)
    && (x in q'.warmTail <==> if x == n then u == WarmTail else x in q.warmTail)
    && (x in q'.hot <==> if x == n then u == Hot else x in q.hot)
    && (x in q'.cold <==> if x == n then u == Cold else x in q.cold)
    && (x in q'.coldTail <==> if x == n then u == ColdTail else x in q.coldTail)
  }

  lemma MovesMark(m: Marks, q: Lists, q': Lists, n: Node, u: LruType, x: Node)
    requires n in Queued(q) && Moves(q, q', n, u, x)
    ensures x in Queued(q') <==> x in Queued(q)
    ensures x in Remark(m, q').hot <==> x in SetBits(Remark(m, q), n, u).hot
    ensures x in Remark(m, q').cold <==> x in SetBits(Remark(m, q), n, u).cold
    ensures x in Remark(m, q').tail <==> x in SetBits(Remark(m, q), n, u).tail
  {
  }

  lemma ShiftMarks(m: Marks, q: Lists, t: LruType, u: LruType)
    requires EachOnce(q) && Get(q, t) != []
    ensures Remark(m, Shift(q, t, u)) == SetBits(Remark(m, q), Last(Get(q, t)), u)
    ensures Queued(Shift(q, t, u)) == Queued(q)
  {
    var q', n := Shift(q, t, u), Last(Get(q, t));
    assert n in Queued(q) by { assert n in Get(q, t); }
    var m', m1 := Remark(m, q'), SetBits(Remark(m, q), n, u);
    forall x
      ensures x in Queued(q') <==> x in Queued(q)
      ensures x in m'.hot <==> x in m1.hot
      ensures x in m'.cold <==> x in m1.cold
      ensures x in m'.tail <==> x in m1.tail
    {
      ShiftPlaceAll(q, t, u, x);
      hide *;
      MovesMark(m, q, q', n, u, x);
    }
    assert m'.hot == m1.hot && m'.cold == m1.cold && m'.tail == m1.tail;
  }

  lemma ShiftPlaceAll(q: Lists, t: LruType, u: LruType, x: Node)
    requires EachOnce(q) && Get(q, t) != []
    ensures Moves(q, Shift(q, t, u), Last(Get(q, t)), u, x)
  {
    ShiftPlace(q, t, u, Warm, x);
    ShiftPlace(q, t, u, WarmTail, x);
    ShiftPlace(q, t, u, Hot, x);
    ShiftPlace(q, t, u, Cold, x);
    ShiftPlace(q, t, u, ColdTail, x);
    hide Shift;
  }

  /** The bits of a queued node name its queue. */
  lemma PlacedBits(m: Marks, q: Lists, t: LruType, n: Node)
    requires EachOnce(q) && n in Get(q, t)
    ensures n in Remark(m, q).hot <==> t == Hot
    ensures n in Remark(m, q).cold <==> t == Cold || t == ColdTail
    ensures n in Remark(m, q).tail <==> t == WarmTail || t == ColdTail
  {
    forall u | u != t ensures n !in Get(q, u) {
      OneQueue(q, t, u, n);
    }
    assert n in Queued(q);
    assert n in q.hot <==> n in Get(q, Hot);
    assert n in q.cold <==> n in Get(q, Cold);
    assert n in q.coldTail <==> n in Get(q, ColdTail);
    assert n in q.warmTail <==> n in Get(q, WarmTail);
  }

  // ---------- rebalancing, one node at a time ----------

  lemma CutWarmStep(q: Lists, k: nat)
    requires 0 < k <= |q.warm| + |q.warmTail|
    ensures var q1 := CutWarm(q, k);
            var t := if q1.warmTail != [] then WarmTail else Warm;
            Get(q1, t) != [] && Shift(q1, t, Cold) == CutWarm(q, k - 1)
  {
    var q1, q2 := CutWarm(q, k), CutWarm(q, k - 1);
    var t := if q1.warmTail != [] then WarmTail else Warm;
    assert (q.warm + q.warmTail)[k - 1..] == [Last(Get(q1, t))] + (q.warm + q.warmTail)[k..];
    assert Shift(q1, t, Cold).cold == q2.cold;
    assert Shift(q1, t, Cold).warm == q2.warm;
    assert Shift(q1, t, Cold).warmTail == q2.warmTail;
  }

  lemma CutWarmSize(q: Lists, k: nat)
    requires k <= |q.warm| + |q.warmTail|
    ensures |CutWarm(q, k).warm| + |CutWarm(q, k).warmTail| == k
  {
  }

  lemma CutNothing(q: Lists)
    ensures CutWarm(q, |q.warm| + |q.warmTail|) == q
  {
  }

  lemma CutHotStep(q: Lists, k: nat)
    requires 0 < k <= |q.hot|
    ensures Shift(CutHot(q, k), Hot, Cold) == CutHot(q, k - 1)
  {
    assert q.hot[k - 1..] == [q.hot[k - 1]] + q.hot[k..];
    assert Shift(CutHot(q, k), Hot, Cold).cold == CutHot(q, k - 1).cold;
  }

  lemma FillColdTailStep(q: Lists, k: nat)
    requires k < |q.cold|
    ensures Shift(FillColdTail(q, k), Cold, ColdTail) == FillColdTail(q, k + 1)
  {
    var n := |q.cold|;
    assert q.cold[n - k - 1..] == [q.cold[n - k - 1]] + q.cold[n - k..];
    assert Shift(FillColdTail(q, k), Cold, ColdTail).coldTail == FillColdTail(q, k + 1).coldTail;
  }

  lemma FillColdTailSizes(q: Lists, k: nat)
    requires k <= |q.cold|
    ensures |FillColdTail(q, k).cold| == |q.cold| - k && |FillColdTail(q, k).coldTail| == |q.coldTail| + k
    ensures k == 0 ==> FillColdTail(q, k) == q
  {
  }

  lemma FillWarmTailStep(q: Lists, k: nat)
    requires k < |q.warm|
    ensures Shift(FillWarmTail(q, k), Warm, WarmTail) == FillWarmTail(q, k + 1)
  {
    var n := |q.warm|;
    assert q.warm[n - k - 1..] == [q.warm[n - k - 1]] + q.warm[n - k..];
    assert Shift(FillWarmTail(q, k), Warm, WarmTail).warmTail == FillWarmTail(q, k + 1).warmTail;
  }

  lemma FillWarmTailSizes(q: Lists, k: nat)
    requires k <= |q.warm|
    ensures |FillWarmTail(q, k).warm| == |q.warm| - k && |FillWarmTail(q, k).warmTail| == |q.warmTail| + k
    ensures k == 0 ==> FillWarmTail(q, k) == q
  {
  }
  // ---------- the operations, as functions of the container's state ----------

  datatype Mode = Read | Write

  function Subst(s: seq<Node>, a: Node, b: Node): seq<Node> {
    if s == [] then [] else [if s[0] == a then b else s[0]] + Subst(s[1..], a, b)
  }

  function Unlink(q: Lists, t: LruType, n: Node): Lists {
    With(q, t, Erase(Get(q, t), n))
  }

  function LruTypeIn(s: State, n: Node): LruType {
    LruTypeOf(s.marks, s.config, n)
  }

  /** A state with new queues, the bits of the queued nodes following them. */
  function Requeue(s: State, q: Lists): State {
    s.(lru := q, marks := Remark(s.marks, q))
  }

  function Added(s: State, n: Node, now: Time): State {
    if n in s.linked then s
    else Requeue(s, Rebalanced(LinkAtHead(s.lru, Hot, n), s.config)).(linked := s.linked + {n},
      time := s.time[n := now])
  }

  function Removed(s: State, n: Node, rebalance: bool): State {
    if n !in s.linked then s
    else
      var q := Unlink(s.lru, LruTypeIn(s, n), n);
      Requeue(s, if rebalance then Rebalanced(q, s.config) else q).(linked := s.linked - {n})
  }

  /** The bits of queue `t` added to a node's own. */
  function AddBits(m: Marks, n: Node, t: LruType): Marks {
    match t
    case Warm => m
    case WarmTail => m.(tail := m.tail + {n})
    case Hot => m.(hot := m.hot + {n})
    case Cold => m.(cold := m.cold + {n})
    case ColdTail => m.(cold := m.cold + {n}, tail := m.tail + {n})
  }

  function Replaced(s: State, a: Node, b: Node): State {
    if a !in s.linked || b in s.linked || a !in s.time then s
    else
      var t := LruTypeIn(s, a);
      State(With(s.lru, t, Subst(Get(s.lru, t), a, b)), AddBits(s.marks, b, t),
            s.linked - {a} + {b}, s.time[b := s.time[a]], s.config)
  }

  predicate AcceptsMode(c: Config, mode: Mode) {
    match mode
    case Read => c.updateOnRead
    case Write => c.updateOnWrite
  }

  /** Whether an access counts: the mode is enabled and the refresh time, in 32-bit seconds, has passed. */
  predicate Due(s: State, n: Node, mode: Mode, now: Time) {
    && AcceptsMode(s.config, mode)
    && n in s.linked && n in s.time
    && now >= (s.time[n] + s.config.refreshTime) % TWO_32
  }

  function Accessed(s: State, n: Node, mode: Mode, now: Time): State {
    if !Due(s, n, mode, now) then s
    else
      var t := LruTypeIn(s, n);
      var target := if t.Hot? then Hot else Warm;
      var q := LinkAtHead(Unlink(s.lru, t, n), target, n);
      var promoted := (t.Cold? || t.ColdTail?) && s.config.rebalanceOnAccess;
      Requeue(s, if promoted then Rebalanced(q, s.config) else q).(time := s.time[n := now])
  }

  /** Tail tracking cannot be turned on or off. */
  function Reconfigured(s: State, c: Config): State {
    if (s.config.tailSize > 0) == (c.tailSize > 0) then s.(config := c) else s
  }

  // ---------- linking and unlinking a node ----------

  lemma {:induction false} EraseTimes(s: seq<Node>, n: Node, x: Node)
    ensures multiset(Erase(s, n))[x] == multiset(s)[x] - if x == n && n in s then 1 else 0
  {
    if s != [] {
      assert s == [s[0]] + s[1..];
      if s[0] != n {
        EraseTimes(s[1..], n, x);
      }
    }
  }

  lemma UnlinkTimes(q: Lists, t: LruType, n: Node, x: Node)
    requires n in Get(q, t)
    ensures Times(Unlink(q, t, n), x) == Times(q, x) - if x == n then 1 else 0
  {
    EraseTimes(Get(q, t), n, x);
  }

  lemma QueuedTimes(q: Lists, x: Node)
    ensures x in Queued(q) <==> Times(q, x) > 0
  {
  }

  /** Unlinking a node takes it out of its queue and leaves the others where they are. */
  lemma UnlinkPlaces(q: Lists, t: LruType, n: Node, v: LruType, x: Node)
    requires EachOnce(q) && n in Get(q, t)
    ensures x in Get(Unlink(q, t, n), v) <==> x != n && x in Get(q, v)
  {
    EraseTimes(Get(q, t), n, x);
    assert Times(q, x) <= 1;
    if v != t && x == n {
      OneQueue(q, t, v, n);
    }
  }

  lemma UnlinkKeepsDistinct(q: Lists, t: LruType, n: Node)
    requires EachOnce(q) && n in Get(q, t)
    ensures EachOnce(Unlink(q, t, n)) && Queued(Unlink(q, t, n)) == Queued(q) - {n}
  {
    var q' := Unlink(q, t, n);
    hide Unlink;
    forall x ensures Times(q', x) <= 1 {
      UnlinkTimes(q, t, n, x);
      assert Times(q, x) <= 1;
    }
    forall x ensures x in Queued(q') <==> x in Queued(q) && x != n {
      UnlinkTimes(q, t, n, x);
      assert Times(q, n) <= 1;
      QueuedTimes(q, x);
      QueuedTimes(q', x);
      hide Times, Queued;
    }
    assert Queued(q') == Queued(q) - {n};
  }

  lemma LinkKeepsDistinct(q: Lists, t: LruType, n: Node)
    requires EachOnce(q) && n !in Queued(q)
    ensures EachOnce(LinkAtHead(q, t, n)) && Queued(LinkAtHead(q, t, n)) == Queued(q) + {n}
  {
    hide Times, Queued, LinkAtHead;
    var q' := LinkAtHead(q, t, n);
    QueuedTimes(q, n);
    forall x ensures Times(q', x) <= 1 {
      LinkAtHeadTimes(q, t, n, x);
    }
    forall x ensures x in Queued(q') <==> x in Queued(q) || x == n {
      LinkAtHeadTimes(q, t, n, x);
      QueuedTimes(q, x);
      QueuedTimes(q', x);
    }
    assert Queued(q') == Queued(q) + {n};
  }

  lemma LinkMoves(q: Lists, t: LruType, n: Node, x: Node)
    requires n !in Queued(q)
    ensures Moves(q, LinkAtHead(q, t, n), n, t, x)
  {
  }

  lemma LinkMarks(m: Marks, q: Lists, t: LruType, n: Node)
    requires n !in Queued(q)
    ensures Remark(m, LinkAtHead(q, t, n)) == SetBits(Remark(m, q), n, t)
  {
    var q' := LinkAtHead(q, t, n);
    var m', m1 := Remark(m, q'), SetBits(Remark(m, q), n, t);
    forall x
      ensures (x in m'.hot <==> x in m1.hot) && (x in m'.cold <==> x in m1.cold) && (x in m'.tail <==> x in m1.tail)
    {
      LinkMoves(q, t, n, x);
      hide LinkAtHead;
    }
    assert m'.hot == m1.hot && m'.cold == m1.cold && m'.tail == m1.tail;
  }

  lemma UnlinkMarks(m: Marks, q: Lists, t: LruType, n: Node)
    requires EachOnce(q) && n in Get(q, t) && m == Remark(m, q)
    ensures Remark(m, Unlink(q, t, n)) == m
  {
    var q' := Unlink(q, t, n);
    var m' := Remark(m, q');
    forall x
      ensures (x in m'.hot <==> x in m.hot) && (x in m'.cold <==> x in m.cold) && (x in m'.tail <==> x in m.tail)
    {
      UnlinkPlaces(q, t, n, Warm, x);
      UnlinkPlaces(q, t, n, WarmTail, x);
      UnlinkPlaces(q, t, n, Hot, x);
      UnlinkPlaces(q, t, n, Cold, x);
      UnlinkPlaces(q, t, n, ColdTail, x);
      hide Unlink;
    }
    assert m'.hot == m.hot && m'.cold == m.cold && m'.tail == m.tail;
  }

  // ---------- rebalancing loses nothing, and what it achieves ----------

  lemma Halves(s: seq<Node>, k: nat, x: Node)
    requires k <= |s|
    ensures multiset(s)[x] == multiset(s[..k])[x] + multiset(s[k..])[x]
  {
    assert s == s[..k] + s[k..];
  }

  lemma Joined(a: seq<Node>, b: seq<Node>, x: Node)
    ensures multiset(a + b)[x] == multiset(a)[x] + multiset(b)[x]
  {
  }

  lemma RestTimes(a: seq<Node>, b: seq<Node>, k: nat, w: nat, x: Node)
    requires w == Min(k, |a|) && k <= |a| + |b|
    ensures multiset((a + b)[k..])[x] == multiset(a[w..])[x] + multiset(b[k - w..])[x]
  {
    assert (a + b)[k..] == a[w..] + b[k - w..];
  }

  lemma WithTimes(q: Lists, t: LruType, s: seq<Node>, x: Node)
    ensures Times(With(q, t, s), x) == Times(q, x) - multiset(Get(q, t))[x] + multiset(s)[x]
    ensures multiset(Get(q, t))[x] <= Times(q, x)
  {
  }

  lemma CutWarmTimes(q: Lists, k: nat, x: Node)
    requires k <= |q.warm| + |q.warmTail|
    ensures Times(CutWarm(q, k), x) == Times(q, x)
  {
    hide Times;
    var w := Min(k, |q.warm|);
    var rest := (q.warm + q.warmTail)[k..];
    Halves(q.warm, w, x);
    Halves(q.warmTail, k - w, x);
    RestTimes(q.warm, q.warmTail, k, w, x);
    Joined(rest, q.cold, x);
    WithTimes(q, Warm, q.warm[..w], x);
    var q1 := With(q, Warm, q.warm[..w]);
    WithTimes(q1, WarmTail, q.warmTail[..k - w], x);
    WithTimes(With(q1, WarmTail, q.warmTail[..k - w]), Cold, rest + q.cold, x);
  }

  lemma CutHotTimes(q: Lists, k: nat, x: Node)
    requires k <= |q.hot|
    ensures Times(CutHot(q, k), x) == Times(q, x)
  {
    Halves(q.hot, k, x);
  }

  lemma FillColdTailTimes(q: Lists, k: nat, x: Node)
    requires k <= |q.cold|
    ensures Times(FillColdTail(q, k), x) == Times(q, x)
  {
    Halves(q.cold, |q.cold| - k, x);
  }

  lemma FillWarmTailTimes(q: Lists, k: nat, x: Node)
    requires k <= |q.warm|
    ensures Times(FillWarmTail(q, k), x) == Times(q, x)
  {
    Halves(q.warm, |q.warm| - k, x);
  }

  /** Rebalancing keeps every node, as often as it occurs. */
  lemma RebalancedTimes(q: Lists, c: Config, x: Node)
    ensures Times(Rebalanced(q, c), x) == Times(q, x)
  {
    hide Times, CutWarm, CutHot, FillColdTail, FillWarmTail, Share, Count;
    var q1 := ShrunkWarm(q, Share(WarmPercent(c), Count(q)));
    var q2 := ShrunkHot(q1, Share(c.hotPercent, Count(q1)));
    var q3 := AdjustedColdTail(q2, c.tailSize);
    CutWarmTimes(q, Min(|q.warm| + |q.warmTail|, Share(WarmPercent(c), Count(q))), x);
    CutHotTimes(q1, Min(|q1.hot|, Share(c.hotPercent, Count(q1))), x);
    FillColdTailTimes(q2, Joining(|q2.cold|, |q2.coldTail|, c.tailSize), x);
    FillWarmTailTimes(q3, Joining(|q3.warm|, |q3.warmTail|, c.tailSize), x);
  }

  lemma RebalancedDistinct(q: Lists, c: Config)
    ensures EachOnce(q) ==> EachOnce(Rebalanced(q, c))
    ensures Queued(Rebalanced(q, c)) == Queued(q)
  {
    var q' := Rebalanced(q, c);
    hide Rebalanced;
    forall x ensures Times(q', x) == Times(q, x) {
      RebalancedTimes(q, c, x);
    }
    forall x ensures x in Queued(q') <==> x in Queued(q) {
      QueuedTimes(q, x);
      QueuedTimes(q', x);
      hide Times, Queued;
    }
    assert Queued(q') == Queued(q);
    hide Times;
  }

  lemma ShrunkSizes(q: Lists, w: nat, h: nat)
    ensures var q' := ShrunkHot(ShrunkWarm(q, w), h);
            && |q'.warm| + |q'.warmTail| == Min(|q.warm| + |q.warmTail|, w)
            && |q'.warmTail| <= |q.warmTail|
            && |q'.hot| == Min(|q.hot|, h)
            && q'.coldTail == q.coldTail
            && Count(ShrunkWarm(q, w)) == Count(q') == Count(q)
  {
  }

  lemma AdjustedSizes(q: Lists, tailSize: nat)
    ensures var q' := AdjustedWarmTail(AdjustedColdTail(q, tailSize), tailSize);
            && |q'.warm| + |q'.warmTail| == |q.warm| + |q.warmTail|
            && |q'.cold| + |q'.coldTail| == |q.cold| + |q.coldTail|
            && |q'.hot| == |q.hot|
            && (|q.coldTail| <= tailSize ==> |q'.coldTail| == Min(tailSize, |q.cold| + |q.coldTail|))
            && (|q.warmTail| <= tailSize ==> |q'.warmTail| == Min(tailSize, |q.warm| + |q.warmTail|))
  {
  }

  lemma SharesAdd(w: nat, h: nat, c: nat, n: nat)
    requires w + h + c == 100
    ensures 100 * (n - Share(w, n) - Share(h, n)) >= c * n
  {
    assert 100 * n == w * n + h * n + c * n;
  }

  /** The sizes rebalancing leaves: warm and hot within their shares, so cold has at least its own,
      and each tail queue as full as it can be, unless it was too long already. */
  lemma RebalancedSizes(q: Lists, c: Config)
    requires CheckLruSizes(c)
    ensures var q', n := Rebalanced(q, c), Count(q);
            && Count(q') == n
            && |q'.warm| + |q'.warmTail| == Min(|q.warm| + |q.warmTail|, Share(WarmPercent(c), n))
            && |q'.hot| == Min(|q.hot|, Share(c.hotPercent, n))
            && 100 * (|q'.cold| + |q'.coldTail|) >= c.coldPercent * n
            && (|q.coldTail| <= c.tailSize ==> |q'.coldTail| == Min(c.tailSize, |q'.cold| + |q'.coldTail|))
            && (|q.warmTail| <= c.tailSize ==> |q'.warmTail| == Min(c.tailSize, |q'.warm| + |q'.warmTail|))
  {
    AcceptedSizes(c);
    hide ShrunkWarm, ShrunkHot, AdjustedColdTail, AdjustedWarmTail, WarmPercent, CheckLruSizes, Share;
    var n := Count(q);
    var w, h := Share(WarmPercent(c), n), Share(c.hotPercent, n);
    ShrunkSizes(q, w, h);
    AdjustedSizes(ShrunkHot(ShrunkWarm(q, w), h), c.tailSize);
    SharesAdd(WarmPercent(c), c.hotPercent, c.coldPercent, n);
  }

  // ---------- every operation keeps the container valid ----------

  /** The queue a linked node is in is the one its bits name, and it is in no other. */
  lemma BitsNameQueue(s: State, n: Node, t: LruType)
    requires Valid(s)
    ensures n in Get(s.lru, t) <==> n in s.linked && t == LruTypeIn(s, n)
  {
    if n in s.linked {
      var u :| n in Get(s.lru, u) by {
        assert n in Get(s.lru, Warm) || n in Get(s.lru, WarmTail) || n in Get(s.lru, Hot) || n in Get(s.lru, Cold)
            || n in Get(s.lru, ColdTail);
      }
      PlacedBits(s.marks, s.lru, u, n);
      if t != u {
        OneQueue(s.lru, u, t, n);
      }
    } else {
      assert n !in Queued(s.lru);
    }
  }

  lemma RemarkTwice(m: Marks, q: Lists)
    ensures Remark(Remark(m, q), q) == Remark(m, q)
  {
  }

  lemma NoTails(q: Lists, c: Config)
    requires c.tailSize == 0 && q.warmTail == [] && q.coldTail == []
    ensures Rebalanced(q, c).warmTail == [] && Rebalanced(q, c).coldTail == []
  {
  }

  lemma RequeueValid(s: State, q: Lists, linked: set<Node>, time: map<Node, Time>, rebalance: bool)
    requires EachOnce(q) && Queued(q) == linked <= time.Keys
    requires s.config.tailSize == 0 ==> q.warmTail == [] && q.coldTail == []
    requires CheckLruSizes(s.config)
    ensures Valid(Requeue(s, if rebalance then Rebalanced(q, s.config) else q).(linked := linked, time := time))
  {
    if rebalance {
      RebalancedDistinct(q, s.config);
      if s.config.tailSize == 0 {
        NoTails(q, s.config);
      }
      RemarkTwice(s.marks, Rebalanced(q, s.config));
    } else {
      RemarkTwice(s.marks, q);
    }
    hide Rebalanced, Queued, EachOnce, Remark;
  }

  lemma AddedValid(s: State, n: Node, now: Time)
    requires Valid(s)
    ensures Valid(Added(s, n, now))
  {
    if n !in s.linked {
      LinkKeepsDistinct(s.lru, Hot, n);
      RequeueValid(s, LinkAtHead(s.lru, Hot, n), s.linked + {n}, s.time[n := now], true);
    }
  }

  lemma RemovedValid(s: State, n: Node, rebalance: bool)
    requires Valid(s)
    ensures Valid(Removed(s, n, rebalance))
  {
    if n in s.linked {
      var t := LruTypeIn(s, n);
      BitsNameQueue(s, n, t);
      UnlinkKeepsDistinct(s.lru, t, n);
      RequeueValid(s, Unlink(s.lru, t, n), s.linked - {n}, s.time, rebalance);
    }
  }

  lemma AccessedValid(s: State, n: Node, mode: Mode, now: Time)
    requires Valid(s)
    ensures Valid(Accessed(s, n, mode, now))
  {
    if Due(s, n, mode, now) {
      var t := LruTypeIn(s, n);
      var target := if t.Hot? then Hot else Warm;
      BitsNameQueue(s, n, t);
      UnlinkKeepsDistinct(s.lru, t, n);
      LinkKeepsDistinct(Unlink(s.lru, t, n), target, n);
      RequeueValid(s, LinkAtHead(Unlink(s.lru, t, n), target, n), s.linked, s.time[n := now],
                   (t.Cold? || t.ColdTail?) && s.config.rebalanceOnAccess);
    }
  }

  lemma {:induction false} SubstTimes(s: seq<Node>, a: Node, b: Node, x: Node)
    requires b !in s && a != b
    ensures multiset(Subst(s, a, b))[x] == multiset(s)[if x == b then a else x] - if x == a then multiset(s)[a] else 0
  {
    if s != [] {
      assert s == [s[0]] + s[1..];
      SubstTimes(s[1..], a, b, x);
    }
  }

  /** What replacing does to where nodes are. */
  lemma SwapPlaces(q: Lists, t: LruType, a: Node, b: Node, v: LruType, x: Node)
    requires EachOnce(q) && a in Get(q, t) && b !in Queued(q)
    ensures x in Get(With(q, t, Subst(Get(q, t), a, b)), v) <==> if x == b then v == t else x != a && x in Get(q, v)
  {
    assert b !in Get(q, v) && b !in Get(q, t);
    SubstTimes(Get(q, t), a, b, x);
    if v != t && x == a {
      OneQueue(q, t, v, a);
    }
  }

  lemma SwapTimes(q: Lists, t: LruType, a: Node, b: Node, x: Node)
    requires EachOnce(q) && a in Get(q, t) && b !in Queued(q)
    ensures Times(With(q, t, Subst(Get(q, t), a, b)), x) == if x == b then 1 else if x == a then 0 else Times(q, x)
  {
    hide Times, With, Subst, Queued;
    var s := Get(q, t);
    QueuedTimes(q, b);
    WithTimes(q, t, s, b);
    WithTimes(q, t, s, a);
    assert b !in s && multiset(s)[a] == 1;
    SubstTimes(s, a, b, x);
    WithTimes(q, t, Subst(s, a, b), x);
  }

  lemma SwapDistinct(q: Lists, t: LruType, a: Node, b: Node)
    requires EachOnce(q) && a in Get(q, t) && b !in Queued(q)
    ensures var q' := With(q, t, Subst(Get(q, t), a, b));
            EachOnce(q') && Queued(q') == Queued(q) - {a} + {b}
  {
    hide With, Subst, Times, Queued, Get;
    var q' := With(q, t, Subst(Get(q, t), a, b));
    forall x ensures Times(q', x) <= 1 {
      SwapTimes(q, t, a, b, x);
    }
    forall x ensures x in Queued(q') <==> x == b || (x in Queued(q) && x != a) {
      SwapTimes(q, t, a, b, x);
      QueuedTimes(q, x);
      QueuedTimes(q', x);
    }
    assert Queued(q') == Queued(q) - {a} + {b};
  }

  /** The bits a node brings along are among those of queue `t`. */
  predicate Fits(m: Marks, n: Node, t: LruType) {
    && (n in m.hot ==> t == Hot)
    && (n in m.cold ==> t == Cold || t == ColdTail)
    && (n in m.tail ==> t == WarmTail || t == ColdTail)
  }

  lemma SwapMarks(m: Marks, q: Lists, t: LruType, a: Node, b: Node)
    requires EachOnce(q) && a in Get(q, t) && b !in Queued(q) && m == Remark(m, q)
    ensures var q', m' := With(q, t, Subst(Get(q, t), a, b)), AddBits(m, b, t);
            m' == Remark(m', q') <==> Fits(m, b, t)
  {
    hide With, Subst, Remark, EachOnce, Get;
    var q', m' := With(q, t, Subst(Get(q, t), a, b)), AddBits(m, b, t);
    var m1 := Remark(m', q');
    forall x | x != b
      ensures (x in m'.hot <==> x in m1.hot) && (x in m'.cold <==> x in m1.cold) && (x in m'.tail <==> x in m1.tail)
    {
      SwapBits(m, q, t, a, b, x);
    }
    SwapDistinct(q, t, a, b);
    SwapPlaces(q, t, a, b, t, b);
    PlacedBits(m', q', t, b);
    if Fits(m, b, t) {
      assert m'.hot == m1.hot && m'.cold == m1.cold && m'.tail == m1.tail;
    }
  }

  lemma SwapBits(m: Marks, q: Lists, t: LruType, a: Node, b: Node, x: Node)
    requires EachOnce(q) && a in Get(q, t) && b !in Queued(q) && m == Remark(m, q) && x != b
    ensures var m' := AddBits(m, b, t);
            var m1 := Remark(m', With(q, t, Subst(Get(q, t), a, b)));
            (x in m'.hot <==> x in m1.hot) && (x in m'.cold <==> x in m1.cold) && (x in m'.tail <==> x in m1.tail)
  {
    SwapPlaces(q, t, a, b, Warm, x);
    SwapPlaces(q, t, a, b, WarmTail, x);
    SwapPlaces(q, t, a, b, Hot, x);
    SwapPlaces(q, t, a, b, Cold, x);
    SwapPlaces(q, t, a, b, ColdTail, x);
    hide With, Subst;
  }

  /** Replacing takes the new node's bits as they are and only adds to them, so the container stays
      valid if and only if the new node brings no bit along that its queue does not have. */
  lemma ReplacedValid(s: State, a: Node, b: Node)
    requires Valid(s) && a in s.linked && b !in s.linked
    ensures Valid(Replaced(s, a, b)) <==> Fits(s.marks, b, LruTypeIn(s, a))
  {
    var t := LruTypeIn(s, a);
    BitsNameQueue(s, a, t);
    SwapDistinct(s.lru, t, a, b);
    SwapMarks(s.marks, s.lru, t, a, b);
    hide Remark, EachOnce, Subst, AddBits, LruTypeOf;
  }

  // ---------- the state in which an operation rebalances ----------

  lemma LinkReady(s: State, n: Node)
    requires Valid(s) && n !in s.linked
    ensures EachOnce(LinkAtHead(s.lru, Hot, n))
    ensures SetBits(s.marks, n, Hot) == Remark(s.marks, LinkAtHead(s.lru, Hot, n))
  {
    LinkKeepsDistinct(s.lru, Hot, n);
    LinkMarks(s.marks, s.lru, Hot, n);
  }

  lemma UnlinkReady(s: State, n: Node)
    requires Valid(s) && n in s.linked
    ensures var q := Unlink(s.lru, LruTypeIn(s, n), n);
            EachOnce(q) && s.marks == Remark(s.marks, q)
  {
    var t := LruTypeIn(s, n);
    BitsNameQueue(s, n, t);
    UnlinkKeepsDistinct(s.lru, t, n);
    UnlinkMarks(s.marks, s.lru, t, n);
  }

  lemma PromoteReady(s: State, n: Node)
    requires Valid(s) && n in s.linked
    ensures var t := LruTypeIn(s, n);
            var q := LinkAtHead(Unlink(s.lru, t, n), if t.Hot? then Hot else Warm, n);
            && EachOnce(q)
            && Remark(s.marks, q) == SetBits(s.marks, n, if t.Hot? then Hot else Warm)
            && (n in s.marks.hot <==> t.Hot?)
            && (n in s.marks.cold <==> t.Cold? || t.ColdTail?)
            && (n in s.marks.tail <==> t.WarmTail? || t.ColdTail?)
  {
    var t := LruTypeIn(s, n);
    var target := if t.Hot? then Hot else Warm;
    BitsNameQueue(s, n, t);
    PlacedBits(s.marks, s.lru, t, n);
    UnlinkKeepsDistinct(s.lru, t, n);
    UnlinkMarks(s.marks, s.lru, t, n);
    hide LruTypeOf, Unlink;
    LinkKeepsDistinct(Unlink(s.lru, t, n), target, n);
    LinkMarks(s.marks, Unlink(s.lru, t, n), target, n);
    hide Remark, EachOnce, LinkAtHead;
  }

  // ---------- the container ----------

  class Container {
    var lru: Lists
    var marks: Marks
    var linked: set<Node>
    var time: map<Node, Time>
    var config: Config

    ghost function View(): State reads this {
      State(lru, marks, linked, time, config)
    }

    constructor (c: Config)
      requires CheckLruSizes(c)
      ensures View() == State(EMPTY, Marks({}, {}, {}), {}, map[], c) && Valid(View())
    {
      lru, marks, linked, time, config := EMPTY, Marks({}, {}, {}), {}, map[], c;
    }

    /** Moves the tail of one queue to the head of another and updates the node's bits. */
    method MoveTail(from: LruType, to: LruType, ghost m0: Marks)
      requires Get(lru, from) != [] && EachOnce(lru) && marks == Remark(m0, lru)
      requires (to == Cold && from != Cold && from != ColdTail) || (from == Cold && to == ColdTail)
               || (from == Warm && to == WarmTail)
      modifies `lru, `marks
      ensures lru == Shift(old(lru), from, to)
      ensures EachOnce(lru) && marks == Remark(m0, lru)
    {
      var node := Last(Get(lru, from));
      ShiftKeepsDistinct(lru, from, to);
      ShiftMarks(m0, lru, from, to);
      PlacedBits(m0, lru, from, node);
      hide Remark, EachOnce, Queued, Get, With, Last;
      lru := LinkAtHead(DropTail(lru, from), to, node);
      if from == WarmTail {
        marks := marks.(tail := marks.tail - {node});
      }
      if from == Hot {
        marks := marks.(hot := marks.hot - {node});
      }
      if to == Cold {
        marks := marks.(cold := marks.cold + {node});
      } else {
        marks := marks.(tail := marks.tail + {node});
      }
    }

    method ShrinkWarm(expected: nat, ghost m0: Marks)
      requires EachOnce(lru) && marks == Remark(m0, lru)
      modifies `lru, `marks
      ensures lru == ShrunkWarm(old(lru), expected)
      ensures EachOnce(lru) && marks == Remark(m0, lru)
    {
      hide Remark, EachOnce, CutWarm, Shift;
      ghost var q0, k := lru, |lru.warm| + |lru.warmTail|;
      CutNothing(q0);
      while |lru.warm| + |lru.warmTail| > expected
        invariant k == |lru.warm| + |lru.warmTail| <= |q0.warm| + |q0.warmTail|
        invariant k >= Min(|q0.warm| + |q0.warmTail|, expected)
        invariant lru == CutWarm(q0, k) && EachOnce(lru) && marks == Remark(m0, lru)
      {
        CutWarmStep(q0, k);
        CutWarmSize(q0, k - 1);
        // the tail queue is emptied first
        MoveTail(if |lru.warmTail| > 0 then WarmTail else Warm, Cold, m0);
        k := k - 1;
      }
    }

    method ShrinkHot(expected: nat, ghost m0: Marks)
      requires EachOnce(lru) && marks == Remark(m0, lru)
      modifies `lru, `marks
      ensures lru == ShrunkHot(old(lru), expected)
      ensures EachOnce(lru) && marks == Remark(m0, lru)
    {
      ghost var q0, k := lru, |lru.hot|;
      hide Remark, EachOnce;
      assert CutHot(q0, k) == q0;
      while |lru.hot| > expected
        invariant k == |lru.hot| <= |q0.hot| && k >= Min(|q0.hot|, expected)
        invariant lru == CutHot(q0, k) && EachOnce(lru) && marks == Remark(m0, lru)
      {
        CutHotStep(q0, k);
        MoveTail(Hot, Cold, m0);
        k := k - 1;
      }
    }

    method AdjustColdTail(ghost m0: Marks)
      requires EachOnce(lru) && marks == Remark(m0, lru)
      modifies `lru, `marks
      ensures lru == AdjustedColdTail(old(lru), config.tailSize)
      ensures EachOnce(lru) && marks == Remark(m0, lru)
    {
      hide Remark, EachOnce, FillColdTail, Shift;
      ghost var q0, k := lru, 0;
      FillColdTailSizes(q0, 0);
      while lru.cold != [] && |lru.coldTail| + 1 <= config.tailSize
        invariant k <= Joining(|q0.cold|, |q0.coldTail|, config.tailSize)
        invariant |lru.cold| == |q0.cold| - k && |lru.coldTail| == |q0.coldTail| + k
        invariant lru == FillColdTail(q0, k) && EachOnce(lru) && marks == Remark(m0, lru)
        decreases |lru.cold|
      {
        FillColdTailStep(q0, k);
        FillColdTailSizes(q0, k + 1);
        MoveTail(Cold, ColdTail, m0);
        k := k + 1;
      }
    }

    method AdjustWarmTail(ghost m0: Marks)
      requires EachOnce(lru) && marks == Remark(m0, lru)
      modifies `lru, `marks
      ensures lru == AdjustedWarmTail(old(lru), config.tailSize)
      ensures EachOnce(lru) && marks == Remark(m0, lru)
    {
      hide Remark, EachOnce, FillWarmTail, Shift;
      ghost var q0, k := lru, 0;
      FillWarmTailSizes(q0, 0);
      while lru.warm != [] && |lru.warmTail| + 1 <= config.tailSize
        invariant k <= Joining(|q0.warm|, |q0.warmTail|, config.tailSize)
        invariant |lru.warm| == |q0.warm| - k && |lru.warmTail| == |q0.warmTail| + k
        invariant lru == FillWarmTail(q0, k) && EachOnce(lru) && marks == Remark(m0, lru)
        decreases |lru.warm|
      {
        FillWarmTailStep(q0, k);
        FillWarmTailSizes(q0, k + 1);
        MoveTail(Warm, WarmTail, m0);
        k := k + 1;
      }
    }

    method Rebalance(ghost m0: Marks)
      requires EachOnce(lru) && marks == Remark(m0, lru)
      modifies `lru, `marks
      ensures lru == Rebalanced(old(lru), config)
      ensures EachOnce(lru) && marks == Remark(m0, lru)
    {
      hide Remark, EachOnce, ShrunkWarm, ShrunkHot, AdjustedColdTail, AdjustedWarmTail;
      ShrinkWarm(Share(WarmPercent(config), Count(lru)), m0);
      ShrinkHot(Share(config.hotPercent, Count(lru)), m0);
      AdjustColdTail(m0);
      AdjustWarmTail(m0);
    }

    method Add(n: Node, now: Time) returns (added: bool)
      requires Valid(View())
      modifies this
      ensures Valid(View()) && View() == Added(old(View()), n, now)
      ensures added <==> n !in old(linked)
    {
      ghost var s0 := View();
      hide Valid, Remark, EachOnce, Rebalanced, LinkAtHead;
      AddedValid(s0, n, now);
      added := n !in linked;
      if added {
        LinkReady(s0, n);
        marks := marks.(hot := marks.hot + {n}, cold := marks.cold - {n}, tail := marks.tail - {n});
        lru := LinkAtHead(lru, Hot, n);
        Rebalance(s0.marks);
        linked := linked + {n};
        time := time[n := now];
      }
      assert View() == Added(s0, n, now);
    }

    /** The common part of both removals. */
    method RemoveLocked(n: Node, rebalance: bool)
      requires Valid(View()) && n in linked
      modifies this
      ensures Valid(View()) && View() == Removed(old(View()), n, rebalance)
    {
      ghost var s0 := View();
      hide Valid, Remark, EachOnce, Rebalanced, LruTypeOf, Unlink;
      var t := LruTypeOf(marks, config, n);
      UnlinkReady(s0, n);
      RemovedValid(s0, n, rebalance);
      lru := Unlink(lru, t, n);
      if rebalance {
        Rebalance(s0.marks);
      }
      linked := linked - {n};
    }

    method Remove(n: Node) returns (removed: bool)
      requires Valid(View())
      modifies this
      ensures Valid(View()) && View() == Removed(old(View()), n, true)
      ensures removed <==> n in old(linked)
    {
      if n !in linked {
        return false;
      }
      RemoveLocked(n, true);
      return true;
    }

    /** Removal during eviction: the iterator stands on `n`, and the queues are not rebalanced. */
    method RemoveAt(n: Node)
      requires Valid(View()) && n in linked
      modifies this
      ensures Valid(View()) && View() == Removed(old(View()), n, false)
    {
      RemoveLocked(n, false);
    }

    method Replace(a: Node, b: Node) returns (replaced: bool)
      requires Valid(View())
      modifies this
      ensures View() == Replaced(old(View()), a, b)
      ensures replaced <==> a in old(linked) && b !in old(linked)
      ensures Valid(View()) <==> replaced ==> Fits(old(marks), b, LruTypeIn(old(View()), a))
    {
      if a !in linked || b in linked {
        return false;
      }
      ReplacedValid(View(), a, b);
      var updateTime := time[a];
      var t := LruTypeOf(marks, config, a);
      lru := With(lru, t, Subst(Get(lru, t), a, b));
      match t {
        case Hot => marks := marks.(hot := marks.hot + {b});
        case ColdTail => marks := marks.(tail := marks.tail + {b}, cold := marks.cold + {b});
        case Cold => marks := marks.(cold := marks.cold + {b});
        case WarmTail => marks := marks.(tail := marks.tail + {b});
        case Warm =>
      }
      linked := linked - {a} + {b};
      time := time[b := updateTime];
      return true;
    }

    method RecordAccess(n: Node, mode: Mode, now: Time) returns (recorded: bool)
      requires Valid(View())
      modifies this
      ensures Valid(View()) && View() == Accessed(old(View()), n, mode, now)
      ensures recorded <==> Due(old(View()), n, mode, now)
    {
      ghost var s0 := View();
      hide Remark, EachOnce, Rebalanced, LruTypeOf, Unlink, LinkAtHead, AcceptsMode;
      AccessedValid(s0, n, mode, now);
      recorded := AcceptsMode(config, mode) && n in linked && now >= (time[n] + config.refreshTime) % TWO_32;
      hide Valid;
      if recorded {
        PromoteReady(s0, n);
        var t := LruTypeOf(marks, config, n);
        lru := Unlink(lru, t, n);
        if t.Hot? {
          lru := LinkAtHead(lru, Hot, n);
        } else {
          if t.ColdTail? || t.WarmTail? {
            marks := marks.(tail := marks.tail - {n});
          }
          lru := LinkAtHead(lru, Warm, n);
          if t.Cold? || t.ColdTail? {
            marks := marks.(cold := marks.cold - {n});
          }
        }
        assert marks == Remark(s0.marks, lru);
        if (t.Cold? || t.ColdTail?) && config.rebalanceOnAccess {
          Rebalance(s0.marks);
        }
        time := time[n := now];
      }
      assert View() == Accessed(s0, n, mode, now);
    }

    method SetConfig(c: Config) returns (accepted: bool)
      requires Valid(View()) && CheckLruSizes(c)
      modifies this
      ensures Valid(View()) && View() == Reconfigured(old(View()), c)
      ensures accepted <==> (old(config).tailSize > 0) == (c.tailSize > 0)
    {
      if (config.tailSize > 0) != (c.tailSize > 0) {
        return false;
      }
      config := c;
      return true;
    }
  }
}
