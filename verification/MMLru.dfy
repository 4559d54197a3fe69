/** The LRU eviction container with a movable insertion point: a suffix of the list is marked as
    its tail, and new nodes are linked in front of that suffix. The list is the sequence of its
    nodes from head to tail. */
module MMLru {
  import opened Basics

  type Node = int

  /** `spec` is the insertion point: 0 for the head, s for the fraction 1/2^s from the tail. */
  datatype Config = Config(spec: nat, refreshTime: Time, updateOnWrite: bool, updateOnRead: bool)

  datatype Mode = Read | Write

  // ---------- how long the tail should be ----------

  function ShiftRight(n: nat, s: nat): (r: nat)
    ensures r <= n && (s > 0 ==> 2 * r <= n)
    decreases s
  {
    if s == 0 then n else ShiftRight(n / 2, s - 1)
  }

  function Pow2(s: nat): (p: nat)
    ensures p > 0
  {
    if s == 0 then 1 else 2 * Pow2(s - 1)
  }

  /** Shifting by `s` divides by 2^s and rounds down. */
  lemma {:induction false} ShiftDivides(n: nat, s: nat)
    ensures ShiftRight(n, s) == n / Pow2(s)
    decreases s
  {
    if s > 0 {
      ShiftDivides(n / 2, s - 1);
      DivideTwice(n, 2, Pow2(s - 1));
    }
  }

  function TailLength(n: nat, spec: nat): nat {
    if spec == 0 || n == 0 then 0 else Max(1, ShiftRight(n, spec))
  }

  function Max(a: nat, b: nat): nat {
    if a >= b then a else b
  }

  /** The tail never reaches the head, unless there is only one node. */
  lemma TailIsProper(n: nat, spec: nat)
    ensures TailLength(n, spec) <= n
    ensures n >= 2 ==> TailLength(n, spec) < n
    ensures TailLength(n, spec) == 0 <==> n == 0 || spec == 0
  {
  }

  // ---------- the container as a value ----------

  /** The tail-marked nodes are the last `tailLen` ones. */
  datatype State = State(lru: seq<Node>, tailLen: nat, accessed: set<Node>, time: map<Node, Time>, config: Config)

  function Nodes(s: seq<Node>): set<Node> {
    set n | n in s
  }

  ghost predicate Valid(s: State) {
    && Distinct(s.lru)
    && Nodes(s.lru) <= s.time.Keys
    && s.tailLen <= |s.lru| && (|s.lru| >= 2 ==> s.tailLen < |s.lru|)
    && (s.config.spec == 0 ==> s.tailLen == 0)
  }

  /** The tail has exactly its length; only a change of the specification breaks this, until the
      next node is added or removed. */
  ghost predicate Exact(s: State) {
    s.tailLen == TailLength(|s.lru|, s.config.spec)
  }

  function IndexOf(s: seq<Node>, n: Node): (i: nat)
    requires n in s
    ensures i < |s| && s[i] == n
  {
    if s[0] == n then 0 else 1 + IndexOf(s[1..], n)
  }

  function Insert(s: seq<Node>, p: nat, n: Node): seq<Node>
    requires p <= |s|
  {
    s[..p] + [n] + s[p..]
  }

  /** New nodes go in front of the tail, or to the head while there is none. */
  function InsertAt(s: State): (p: nat)
    ensures p <= |s.lru|
  {
    if s.config.spec == 0 || s.tailLen == 0 || s.tailLen > |s.lru| then 0 else |s.lru| - s.tailLen
  }

  function Added(s: State, n: Node, now: Time): State {
    if n in s.lru then s
    else
      s.(lru := Insert(s.lru, InsertAt(s), n), tailLen := TailLength(|s.lru| + 1, s.config.spec),
         time := s.time[n := now], accessed := s.accessed - {n})
  }

  function Removed(s: State, n: Node): State {
    if n !in s.lru then s
    else
      s.(lru := Without(s.lru, IndexOf(s.lru, n)), tailLen := TailLength(|s.lru| - 1, s.config.spec),
         accessed := s.accessed - {n})
  }

  predicate AcceptsMode(c: Config, mode: Mode) {
    match mode
    case Read => c.updateOnRead
    case Write => c.updateOnWrite
  }

  /** Whether an access counts: the refresh time has passed, in 32-bit seconds, or it is the first. */
  predicate Due(s: State, n: Node, mode: Mode, now: Time) {
    && AcceptsMode(s.config, mode) && n in s.lru && n in s.time
    && (now >= (s.time[n] + s.config.refreshTime) % TWO_32 || n !in s.accessed)
  }

  function InTail(s: State, n: Node): bool {
    n in s.lru && IndexOf(s.lru, n) + s.tailLen >= |s.lru|
  }

  function Accessed(s: State, n: Node, mode: Mode, now: Time): State {
    if !Due(s, n, mode, now) then s
    else
      s.(lru := [n] + Without(s.lru, IndexOf(s.lru, n)),
         tailLen := if InTail(s, n) then TailLength(|s.lru|, s.config.spec) else s.tailLen,
         time := s.time[n := now], accessed := s.accessed + {n})
  }

  function Replaced(s: State, a: Node, b: Node): State {
    if a !in s.lru || b in s.lru || a !in s.time then s
    else
      s.(lru := s.lru[IndexOf(s.lru, a) := b], time := s.time[b := s.time[a]],
         accessed := if a in s.accessed then s.accessed + {b} else s.accessed - {b})
  }

  function Reconfigured(s: State, c: Config): State {
    s.(config := c, tailLen := if c.spec == 0 then 0 else s.tailLen)
  }

  // ---------- sequences ----------

  lemma WithoutFacts(s: seq<Node>, i: nat)
    requires Distinct(s) && i < |s|
    ensures var t := Without(s, i);
            && |t| == |s| - 1 && Distinct(t) && Nodes(t) == Nodes(s) - {s[i]}
            && (forall j {:trigger t[j]} :: 0 <= j < |t| ==> t[j] == if j < i then s[j] else s[j + 1])
  {
    var t := Without(s, i);
    assert forall j {:trigger t[j]} :: 0 <= j < |t| ==> t[j] == if j < i then s[j] else s[j + 1];
    assert s == s[..i] + [s[i]] + s[i + 1..];
    assert forall x :: x in t <==> x in s && x != s[i];
  }

  lemma InsertFacts(s: seq<Node>, p: nat, n: Node)
    requires Distinct(s) && p <= |s| && n !in s
    ensures var t := Insert(s, p, n);
            && |t| == |s| + 1 && Distinct(t) && Nodes(t) == Nodes(s) + {n}
            && (forall j {:trigger t[j]} :: 0 <= j < |t| ==>
                  t[j] == if j < p then s[j] else if j == p then n else s[j - 1])
  {
    var t := Insert(s, p, n);
    assert s == s[..p] + s[p..];
    assert Nodes(t) == Nodes(s) + {n};
    forall i, j | 0 <= i < j < |t| ensures t[i] != t[j] {
      if i == p || j == p {
        assert s[if j == p then i else j - 1] in s;
      }
    }
  }

  lemma IndexUnique(s: seq<Node>, i: nat)
    requires Distinct(s) && i < |s|
    ensures IndexOf(s, s[i]) == i
  {
  }

  lemma ToFront(s: seq<Node>, i: nat)
    requires Distinct(s) && i < |s|
    ensures var t := [s[i]] + Without(s, i);
            && |t| == |s| && Distinct(t) && Nodes(t) == Nodes(s)
            && (forall j {:trigger t[j]} :: 0 <= j < |t| ==>
                  t[j] == if j == 0 then s[i] else if j <= i then s[j - 1] else s[j])
  {
    WithoutFacts(s, i);
    hide Without;
    var t, u := [s[i]] + Without(s, i), Without(s, i);
    assert s[i] !in u by { assert s[i] !in Nodes(u); }
    assert forall j :: 0 < j < |t| ==> t[j] == u[j - 1] && t[j] in u;
  }

  // ---------- every operation keeps it ----------

  lemma AddedValid(s: State, n: Node, now: Time)
    requires Valid(s)
    ensures Valid(Added(s, n, now)) && (Exact(s) || n !in s.lru ==> Exact(Added(s, n, now)))
  {
    hide TailLength, Insert, Distinct;
    if n !in s.lru {
      TailIsProper(|s.lru| + 1, s.config.spec);
      InsertFacts(s.lru, InsertAt(s), n);
    }
  }

  lemma RemovedValid(s: State, n: Node)
    requires Valid(s)
    ensures Valid(Removed(s, n)) && (Exact(s) || n in s.lru ==> Exact(Removed(s, n)))
  {
    hide TailLength, Without, Distinct, IndexOf;
    if n in s.lru {
      TailIsProper(|s.lru| - 1, s.config.spec);
      WithoutFacts(s.lru, IndexOf(s.lru, n));
    }
  }

  lemma AccessedValid(s: State, n: Node, mode: Mode, now: Time)
    requires Valid(s)
    ensures Valid(Accessed(s, n, mode, now)) && (Exact(s) ==> Exact(Accessed(s, n, mode, now)))
  {
    hide TailLength, Without, Distinct, IndexOf;
    if Due(s, n, mode, now) {
      TailIsProper(|s.lru|, s.config.spec);
      ToFront(s.lru, IndexOf(s.lru, n));
    }
  }

  lemma ReplacedValid(s: State, a: Node, b: Node)
    requires Valid(s)
    ensures Valid(Replaced(s, a, b)) && (Exact(s) ==> Exact(Replaced(s, a, b)))
  {
  }

  // ---------- the marks in the list ----------

  /** The last `k` nodes are marked, and the insertion point is the first of them. */
  ghost predicate Marked(lru: seq<Node>, point: Option<Node>, tail: set<Node>, k: nat) {
    && k <= |lru|
    && tail == Nodes(lru[|lru| - k..])
    && point == if k == 0 then None else Some(lru[|lru| - k])
  }

  lemma SuffixMember(s: seq<Node>, i: nat, p: nat)
    requires Distinct(s) && i < |s| && p <= |s|
    ensures s[i] in Nodes(s[p..]) <==> p <= i
  {
    if p <= i {
      assert s[p..][i - p] == s[i];
    }
  }

  lemma MarkedInsert(lru: seq<Node>, point: Option<Node>, tail: set<Node>, k: nat, n: Node)
    requires Marked(lru, point, tail, k)
    ensures Marked(Insert(lru, |lru| - k, n), point, tail, k)
  {
    var t := Insert(lru, |lru| - k, n);
    assert t[|t| - k..] == lru[|lru| - k..];
  }

  /** Taking out a node that is not the insertion point. */
  lemma MarkedWithout(lru: seq<Node>, point: Option<Node>, tail: set<Node>, k: nat, i: nat)
    requires Distinct(lru) && Marked(lru, point, tail, k) && i < |lru| && point != Some(lru[i])
    ensures lru[i] in tail <==> i >= |lru| - k
    ensures lru[i] in tail ==> k > 1
    ensures Marked(Without(lru, i), point, tail - {lru[i]}, if lru[i] in tail then k - 1 else k)
    ensures Marked([lru[i]] + Without(lru, i), point, tail - {lru[i]}, if lru[i] in tail then k - 1 else k)
  {
    var p := |lru| - k;
    SuffixMember(lru, i, p);
    var t := Without(lru, i);
    var u := [lru[i]] + t;
    if i >= p {
      SuffixWithout(lru, i, p);
      assert u[p + 1..] == t[p..];
    } else {
      assert t[p - 1..] == lru[p..] && u[p..] == lru[p..];
    }
  }

  lemma SuffixWithout(s: seq<Node>, i: nat, p: nat)
    requires Distinct(s) && p <= i < |s|
    ensures Nodes(Without(s, i)[p..]) == Nodes(s[p..]) - {s[i]}
    ensures p < i ==> Without(s, i)[p] == s[p]
  {
    assert Without(s, i)[p..] == Without(s[p..], i - p);
    WithoutFacts(s[p..], i - p);
  }

  lemma SuffixGrows(s: seq<Node>, p: nat)
    requires Distinct(s) && 0 < p <= |s|
    ensures Nodes(s[p - 1..]) == Nodes(s[p..]) + {s[p - 1]} && Nodes(s[p..]) == Nodes(s[p - 1..]) - {s[p - 1]}
  {
    assert s[p - 1..] == [s[p - 1]] + s[p..];
    SuffixMember(s, p - 1, p);
  }

  lemma MarkedReplace(lru: seq<Node>, point: Option<Node>, tail: set<Node>, k: nat, i: nat, b: Node)
    requires Distinct(lru) && Marked(lru, point, tail, k) && i < |lru| && b !in lru
    ensures Marked(lru[i := b], if point == Some(lru[i]) then Some(b) else point,
                   if lru[i] in tail then tail + {b} - {lru[i]} else tail - {b}, k)
  {
    var p := |lru| - k;
    SuffixMember(lru, i, p);
    var t := lru[i := b];
    if i >= p {
      var u := lru[p..];
      assert t[p..] == u[i - p := b];
      forall x ensures x in t[p..] <==> x == b || (x in u && x != lru[i]) {
        assert u[i - p := b][i - p] == b;
        if x in u && x != lru[i] {
          var j :| 0 <= j < |u| && u[j] == x;
          assert u[i - p := b][j] == x;
        }
      }
      assert b !in u;
    } else {
      assert t[p..] == lru[p..];
      assert b !in lru[p..];
    }
  }

  /** The tail can grow by the node before the insertion point, which is there unless the list has no other. */
  lemma PointMoves(lru: seq<Node>, tail: set<Node>, k: nat, n: Node)
    requires Distinct(lru) && Marked(lru, Some(n), tail, k) && n in lru && (|lru| >= 2 ==> k < |lru|)
    ensures var p := IndexOf(lru, n);
            && n in tail
            && (p == 0 ==> |lru| == 1 && k == 1)
            && (p > 0 ==> lru[p - 1] != n && Marked(lru, Some(lru[p - 1]), tail + {lru[p - 1]}, k + 1))
  {
    var p := |lru| - k;
    IndexUnique(lru, p);
    hide IndexOf;
    SuffixMember(lru, p, p);
    if p > 0 {
      SuffixGrows(lru, p);
      assert lru[p - 1] != lru[p];
    }
    hide Distinct, Nodes;
  }

  lemma ValidFacts(s: State)
    requires Valid(s)
    ensures Distinct(s.lru) && (|s.lru| >= 2 ==> s.tailLen < |s.lru|) && (s.config.spec == 0 ==> s.tailLen == 0)
    ensures forall n :: n in s.lru ==> n in s.time
  {
    assert forall n :: n in s.lru ==> n in Nodes(s.lru);
  }

  // ---------- what an operation does to the list ----------

  /** `n` stands right before the nodes of `tail`, at the head when there are none, and the others
      keep their order. */
  ghost predicate LinkedBefore(s: seq<Node>, s': seq<Node>, n: Node, tail: set<Node>) {
    exists p {:trigger s[p..]} ::
      && 0 <= p <= |s| && s' == s[..p] + [n] + s[p..]
      && (forall i :: 0 <= i < |s| ==> (i < p <==> tail != {} && s[i] !in tail))
  }

  /** `n` is gone and the others keep their order. */
  ghost predicate Unlinked(s: seq<Node>, s': seq<Node>, n: Node) {
    exists i {:trigger s[i]} :: 0 <= i < |s| && s[i] == n && s' == s[..i] + s[i + 1..]
  }

  /** `b` stands where `a` stood; the other positions are unchanged. */
  ghost predicate Swapped(s: seq<Node>, s': seq<Node>, a: Node, b: Node) {
    |s'| == |s| && forall i :: 0 <= i < |s| ==> s'[i] == if s[i] == a then b else s[i]
  }

  lemma UpdateSwaps(s: seq<Node>, i: nat, b: Node)
    requires Distinct(s) && i < |s|
    ensures Swapped(s, s[i := b], s[i], b)
  {
  }

  lemma InsertLinks(s: State, point: Option<Node>, tail: set<Node>, n: Node)
    requires Valid(s) && Marked(s.lru, point, tail, s.tailLen)
    ensures LinkedBefore(s.lru, Insert(s.lru, InsertAt(s), n), n, if s.config.spec == 0 then {} else tail)
  {
    var lru, p := s.lru, |s.lru| - s.tailLen;
    assert s.tailLen > 0 ==> lru[p..][0] in Nodes(lru[p..]);
    forall i | 0 <= i < |lru| ensures lru[i] in Nodes(lru[p..]) <==> p <= i {
      SuffixMember(lru, i, p);
    }
    var t := lru[InsertAt(s)..];
  }

  // ---------- the container ----------

  class Container {
    var lru: seq<Node>
    var insertionPoint: Option<Node>
    var tailSize: nat
    var tail: set<Node>
    var accessed: set<Node>
    var time: map<Node, Time>
    var config: Config

    ghost function View(): State reads this {
      State(lru, tailSize, accessed, time, config)
    }

    /** The tail marks are exactly the suffix of `tailSize` nodes from the insertion point on. */
    ghost predicate Good() reads this {
      Valid(View()) && Marked(lru, insertionPoint, tail, tailSize)
    }

    constructor (c: Config)
      ensures Good() && View() == State([], 0, {}, map[], c)
    {
      lru, insertionPoint, tailSize, tail, accessed, time, config := [], None, 0, {}, {}, map[], c;
    }

    /** Grows or shrinks the tail, one node at a time, from any suffix to the right one. */
    method UpdateLruInsertionPoint()
      requires Distinct(lru) && Marked(lru, insertionPoint, tail, tailSize) && (config.spec == 0 ==> tailSize == 0)
      modifies `insertionPoint, `tailSize, `tail
      ensures tailSize == TailLength(|lru|, config.spec) && Marked(lru, insertionPoint, tail, tailSize)
    {
      hide Distinct, ShiftRight, Nodes;
      if config.spec == 0 {
        return;
      }
      if insertionPoint == None {
        tailSize := 0;
        if lru != [] {
          SuffixGrows(lru, |lru|);
          assert lru[|lru|..] == [];
          insertionPoint := Some(lru[|lru| - 1]);
          tail := tail + {lru[|lru| - 1]};
          tailSize := 1;
        }
      }
      if |lru| <= 1 {
        assert |lru| == 1 ==> tailSize == 1;
        return;
      }
      var expected := ShiftRight(|lru|, config.spec);
      var curr := |lru| - tailSize;
      while tailSize < expected && curr != 0
        invariant 0 < tailSize <= |lru| && curr == |lru| - tailSize
        invariant tail == Nodes(lru[curr..])
        decreases curr
      {
        SuffixGrows(lru, curr);
        curr := curr - 1;
        tail := tail + {lru[curr]};
        tailSize := tailSize + 1;
      }
      while tailSize > expected && curr != |lru| - 1
        invariant 0 < tailSize <= |lru| && curr == |lru| - tailSize
        invariant tail == Nodes(lru[curr..])
        invariant tailSize >= Max(1, expected)
        decreases tailSize
      {
        SuffixGrows(lru, curr + 1);
        tail := tail - {lru[curr]};
        tailSize := tailSize - 1;
        curr := curr + 1;
      }
      insertionPoint := Some(lru[curr]);
    }

    /** Moves the insertion point off a node that is about to leave its place. */
    method EnsureNotInsertionPoint(n: Node)
      requires Distinct(lru) && Marked(lru, insertionPoint, tail, tailSize) && n in lru
      requires |lru| >= 2 ==> tailSize < |lru|
      modifies `insertionPoint, `tailSize, `tail
      ensures insertionPoint != Some(n)
      ensures if old(insertionPoint) == Some(n) && |lru| == 1 then
                insertionPoint == None && tailSize == 1 && tail == old(tail)
              else
                && Marked(lru, insertionPoint, tail, tailSize)
                && tailSize == old(tailSize) + if old(insertionPoint) == Some(n) then 1 else 0
      ensures old(insertionPoint) == Some(n) ==> n in tail
    {
      hide Distinct, Marked, IndexOf, Nodes;
      if insertionPoint == Some(n) {
        var p := IndexOf(lru, n);
        PointMoves(lru, tail, tailSize, n);
        if p > 0 {
          insertionPoint := Some(lru[p - 1]);
          tailSize := tailSize + 1;
          tail := tail + {lru[p - 1]};
        } else {
          insertionPoint := None;
        }
      }
    }

    /** Prepares a node to leave its place: it is no longer the insertion point, nor in the tail. */
    method LeaveTail(n: Node) returns (inTail: bool)
      requires Distinct(lru) && Marked(lru, insertionPoint, tail, tailSize) && n in lru
      requires |lru| >= 2 ==> tailSize < |lru|
      modifies `insertionPoint, `tailSize, `tail
      ensures inTail <==> IndexOf(lru, n) + old(tailSize) >= |lru|
      ensures !inTail ==> tailSize == old(tailSize)
      ensures Marked(Without(lru, IndexOf(lru, n)), insertionPoint, tail, tailSize)
      ensures Marked([n] + Without(lru, IndexOf(lru, n)), insertionPoint, tail, tailSize)
    {
      hide Distinct, Without, IndexOf, Marked;
      ghost var tailSize0, point0, tail0 := tailSize, insertionPoint, tail;
      EnsureNotInsertionPoint(n);
      LeavePlace(lru, tailSize0, point0, insertionPoint, tail0, tail, tailSize, IndexOf(lru, n));
      inTail := n in tail;
      if inTail {
        tail := tail - {n};
        tailSize := tailSize - 1;
      }
    }

    method Add(n: Node, now: Time) returns (added: bool)
      requires Good()
      modifies this
      ensures Good() && View() == Added(old(View()), n, now)
      ensures added <==> n !in old(lru)
      ensures added ==> LinkedBefore(old(lru), lru, n, if config.spec == 0 then {} else old(tail))
      ensures added ==> time == old(time)[n := now] && accessed == old(accessed) - {n}
      ensures config == old(config) && (!added ==> View() == old(View()))
    {
      hide Distinct, Insert, TailLength, Marked, LinkedBefore;
      ghost var s0 := View();
      AddedValid(s0, n, now);
      InsertLinks(s0, insertionPoint, tail, n);
      added := n !in lru;
      if added {
        MarkedPoint(lru, insertionPoint, tail, tailSize);
        InsertFacts(lru, |lru| - tailSize, n);
        InsertFacts(lru, 0, n);
        MarkedInsert(lru, insertionPoint, tail, tailSize, n);
        if config.spec == 0 || insertionPoint == None {
          MarkedFront(lru, insertionPoint, tail, n);
          lru := Insert(lru, 0, n);
        } else {
          lru := Insert(lru, |lru| - tailSize, n);
        }
        time := time[n := now];
        accessed := accessed - {n};
        UpdateLruInsertionPoint();
      }
      assert View() == Added(s0, n, now);
    }

    method Remove(n: Node) returns (removed: bool)
      requires Good()
      modifies this
      ensures Good() && View() == Removed(old(View()), n)
      ensures removed <==> n in old(lru)
      ensures removed ==> Unlinked(old(lru), lru, n) && accessed == old(accessed) - {n}
      ensures time == old(time) && config == old(config) && (!removed ==> View() == old(View()))
    {
      hide Distinct, TailLength, IndexOf, Marked, Valid;
      ghost var s0 := View();
      RemovedValid(s0, n);
      ValidFacts(s0);
      removed := n in lru;
      if removed {
        WithoutFacts(lru, IndexOf(lru, n));
        var _ := LeaveTail(n);
        lru := Without(lru, IndexOf(lru, n));
        accessed := accessed - {n};
        UpdateLruInsertionPoint();
      }
      assert View() == Removed(s0, n);
    }

    /** Takes a node from its place to the head; the tail gets its length back when it lost the node. */
    method MoveToHead(n: Node)
      requires Distinct(lru) && Marked(lru, insertionPoint, tail, tailSize) && n in lru
      requires |lru| >= 2 ==> tailSize < |lru|
      requires config.spec == 0 ==> tailSize == 0
      modifies `lru, `insertionPoint, `tailSize, `tail
      ensures lru == [n] + Without(old(lru), IndexOf(old(lru), n)) && Marked(lru, insertionPoint, tail, tailSize)
      ensures tailSize == if IndexOf(old(lru), n) + old(tailSize) >= |lru| then TailLength(|lru|, config.spec)
              else old(tailSize)
    {
      hide Distinct, Without, TailLength, IndexOf, Marked;
      ToFront(lru, IndexOf(lru, n));
      var inTail := LeaveTail(n);
      lru := [n] + Without(lru, IndexOf(lru, n));
      if inTail {
        UpdateLruInsertionPoint();
      }
    }

    method RecordAccess(n: Node, mode: Mode, now: Time) returns (recorded: bool)
      requires Good()
      modifies this
      ensures Good() && View() == Accessed(old(View()), n, mode, now)
      ensures recorded <==>
              && n in old(lru) && (if mode.Read? then config.updateOnRead else config.updateOnWrite)
              && (n !in old(accessed) || now >= (old(time)[n] + config.refreshTime) % 0x1_0000_0000)
      ensures recorded ==> lru != [] && lru[0] == n && Unlinked(old(lru), lru[1..], n)
      ensures recorded ==> time == old(time)[n := now] && accessed == old(accessed) + {n}
      ensures config == old(config) && (!recorded ==> View() == old(View()))
    {
      hide Distinct, TailLength, IndexOf, Marked, Valid;
      ghost var s0 := View();
      AccessedValid(s0, n, mode, now);
      ValidFacts(s0);
      recorded := AcceptsMode(config, mode) && n in lru &&
                  (now >= (time[n] + config.refreshTime) % TWO_32 || n !in accessed);
      if recorded {
        accessed := accessed + {n};
        MoveToHead(n);
        time := time[n := now];
        ToFront(s0.lru, IndexOf(s0.lru, n));
      }
      assert View() == Accessed(s0, n, mode, now);
    }

    method Replace(a: Node, b: Node) returns (replaced: bool)
      requires Good()
      modifies this
      ensures Good() && View() == Replaced(old(View()), a, b)
      ensures replaced <==> a in old(lru) && b !in old(lru)
      ensures replaced ==>
              && Swapped(old(lru), lru, a, b) && time == old(time)[b := old(time)[a]]
              && (b in accessed <==> a in old(accessed))
      ensures config == old(config) && (!replaced ==> View() == old(View()))
    {
      hide Distinct, IndexOf, Marked, Valid, Swapped;
      ghost var s0 := View();
      ReplacedValid(s0, a, b);
      ValidFacts(s0);
      replaced := a in lru && b !in lru;
      if replaced {
        var updateTime, i := time[a], IndexOf(lru, a);
        MarkedReplace(lru, insertionPoint, tail, tailSize, i, b);
        UpdateSwaps(lru, i, b);
        lru := lru[i := b];
        time := time[b := updateTime];
        accessed := if a in accessed then accessed + {b} else accessed - {b};
        tail := if a in tail then tail + {b} - {a} else tail - {b};
        if insertionPoint == Some(a) {
          insertionPoint := Some(b);
        }
      }
      assert View() == Replaced(s0, a, b);
    }

    /** Setting the insertion point to the head unmarks every node. */
    method SetConfig(c: Config)
      requires Good()
      modifies this
      ensures Good() && View() == Reconfigured(old(View()), c)
      ensures config == c && lru == old(lru) && time == old(time) && accessed == old(accessed)
      ensures if c.spec == 0 then tail == {} && insertionPoint == None && tailSize == 0
              else tail == old(tail) && insertionPoint == old(insertionPoint) && tailSize == old(tailSize)
    {
      hide Distinct, Marked;
      ghost var s0 := View();
      MarkedEmpty(lru, insertionPoint, tail, tailSize);
      config := c;
      if c.spec == 0 && insertionPoint != None {
        UnmarkTail();
        insertionPoint := None;
      }
      assert View() == Reconfigured(s0, c);
    }

    method UnmarkTail()
      requires Distinct(lru) && Marked(lru, insertionPoint, tail, tailSize)
      modifies `tail, `tailSize
      ensures tail == {} && tailSize == 0
    {
      hide Distinct, Nodes;
      var curr := |lru| - tailSize;
      while tailSize != 0
        invariant tailSize <= |lru| && curr == |lru| - tailSize && tail == Nodes(lru[curr..])
      {
        SuffixGrows(lru, curr + 1);
        tail := tail - {lru[curr]};
        tailSize := tailSize - 1;
        curr := curr + 1;
      }
      NoNodes(lru[curr..]);
    }

    /** The age of the tail node, and of the node `length` places before it. */
    method GetEvictionAgeStat(length: nat, now: Time) returns (oldest: Time, projected: Time)
      requires Good()
      ensures oldest == if lru == [] then 0 else (now - time[lru[|lru| - 1]]) % 0x1_0000_0000
      ensures projected == if length < |lru| then (now - time[lru[|lru| - 1 - length]]) % 0x1_0000_0000 else oldest
    {
      hide Distinct, Marked, Valid;
      var node := |lru| - 1;
      TimeKnown(View());
      oldest := if node >= 0 then Elapsed(time[lru[node]], now) else 0;
      var seen := 0;
      while seen < length && node >= 0
        invariant 0 <= seen <= length && -1 <= node < |lru| && node == |lru| - 1 - seen
      {
        seen, node := seen + 1, node - 1;
      }
      projected := if node >= 0 then Elapsed(time[lru[node]], now) else oldest;
    }
  }

  lemma MarkedEmpty(lru: seq<Node>, point: Option<Node>, tail: set<Node>, k: nat)
    requires Marked(lru, point, tail, k)
    ensures Marked(lru, None, {}, 0)
    ensures point == None ==> k == 0 && tail == {}
  {
    assert lru[|lru|..] == [];
  }

  lemma NoNodes(s: seq<Node>)
    requires s == []
    ensures Nodes(s) == {}
  {
  }

  lemma TimeKnown(s: State)
    requires Valid(s)
    ensures forall i :: 0 <= i < |s.lru| ==> s.lru[i] in s.time
  {
    assert forall i :: 0 <= i < |s.lru| ==> s.lru[i] in Nodes(s.lru);
  }

  /** Unsigned 32-bit subtraction. */
  function Elapsed(since: Time, now: Time): Time {
    (now - since) % TWO_32
  }

  function Age(s: State, i: nat, now: Time): Time
    requires i < |s.lru| && s.lru[i] in s.time
  {
    Elapsed(s.time[s.lru[i]], now)
  }

  lemma MarkedPoint(lru: seq<Node>, point: Option<Node>, tail: set<Node>, k: nat)
    requires Marked(lru, point, tail, k)
    ensures k <= |lru| && (point == None <==> k == 0)
  {
  }

  lemma MarkedFront(lru: seq<Node>, point: Option<Node>, tail: set<Node>, n: Node)
    requires Marked(lru, point, tail, 0)
    ensures Marked(Insert(lru, 0, n), point, tail, 0)
  {
  }

  /** Once the insertion point is off node `i`, taking that node out leaves a marked suffix. */
  lemma LeavePlace(lru: seq<Node>, k0: nat, point0: Option<Node>, point: Option<Node>, tail0: set<Node>,
      tail: set<Node>, k: nat, i: nat)
    requires Distinct(lru) && Marked(lru, point0, tail0, k0) && i < |lru| && point != Some(lru[i])
    requires if point0 == Some(lru[i]) && |lru| == 1 then point == None && k == 1 && tail == tail0
             else Marked(lru, point, tail, k) && k == k0 + if point0 == Some(lru[i]) then 1 else 0
    ensures lru[i] in tail <==> i + k0 >= |lru|
    ensures var k' := if lru[i] in tail then k - 1 else k;
            && k' >= 0
            && Marked(Without(lru, i), point, tail - {lru[i]}, k')
            && Marked([lru[i]] + Without(lru, i), point, tail - {lru[i]}, k')
            && (lru[i] !in tail ==> tail - {lru[i]} == tail && k' == k0)
  {
    if point0 == Some(lru[i]) && |lru| == 1 {
      assert i == 0 && Without(lru, i) == [] && lru[0..] == lru && [lru[i]][1..] == [];
      assert tail - {lru[i]} == {};
    } else {
      MarkedWithout(lru, point, tail, k, i);
      if point0 == Some(lru[i]) {
        IndexUnique(lru, |lru| - k0);
        IndexUnique(lru, i);
      }
    }
  }

  // ---------- whole runs ----------

  datatype Op =
    | Add(n: Node, now: Time)
    | Remove(n: Node)
    | Replace(a: Node, b: Node)
    | Access(n: Node, mode: Mode, now: Time)
    | SetConfig(c: Config)

  function Apply(s: State, op: Op): State {
    match op
    case Add(n, now) => Added(s, n, now)
    case Remove(n) => Removed(s, n)
    case Replace(a, b) => Replaced(s, a, b)
    case Access(n, mode, now) => Accessed(s, n, mode, now)
    case SetConfig(c) => Reconfigured(s, c)
  }

  function Run(s: State, ops: seq<Op>): State
    decreases |ops|
  {
    if ops == [] then s else Run(Apply(s, ops[0]), ops[1..])
  }

  function Fresh(c: Config): State {
    State([], 0, {}, map[], c)
  }

  /** The insertion point is never specified otherwise. */
  predicate KeepsSpec(ops: seq<Op>, spec: nat) {
    forall i :: 0 <= i < |ops| && ops[i].SetConfig? ==> ops[i].c.spec == spec
  }

  lemma StepExact(s: State, op: Op)
    requires Valid(s) && Exact(s) && (op.SetConfig? ==> op.c.spec == s.config.spec)
    ensures Valid(Apply(s, op)) && Exact(Apply(s, op)) && Apply(s, op).config.spec == s.config.spec
  {
    hide Distinct, TailLength;
    match op
    case Add(n, now) => AddedValid(s, n, now);
    case Remove(n) => RemovedValid(s, n);
    case Replace(a, b) => ReplacedValid(s, a, b);
    case Access(n, mode, now) => AccessedValid(s, n, mode, now);
    case SetConfig(c) =>
  }

  lemma {:induction false} RunExact(s: State, ops: seq<Op>)
    requires Valid(s) && Exact(s) && KeepsSpec(ops, s.config.spec)
    ensures Valid(Run(s, ops)) && Exact(Run(s, ops)) && Run(s, ops).config.spec == s.config.spec
    decreases |ops|
  {
    if ops != [] {
      StepExact(s, ops[0]);
      hide Valid, Exact, Apply;
      RunExact(Apply(s, ops[0]), ops[1..]);
    }
  }

  /** After any run with a fixed insertion point the tail is one node or, if that is more, the
      specified fraction of the list. */
  lemma TailInEveryRun(c: Config, ops: seq<Op>)
    requires KeepsSpec(ops, c.spec)
    ensures var s := Run(Fresh(c), ops);
            if c.spec == 0 || s.lru == [] then s.tailLen == 0
            else if |s.lru| < Pow2(c.spec) then s.tailLen == 1
            else s.tailLen == |s.lru| / Pow2(c.spec)
  {
    RunExact(Fresh(c), ops);
    var s := Run(Fresh(c), ops);
    ShiftDivides(|s.lru|, c.spec);
    Quotient(|s.lru|, Pow2(c.spec), 0);
    hide Run, Valid, ShiftRight, Pow2;
  }

  /** And the insertion point is absent exactly while there is nothing to point at or no need to. */
  lemma PointInEveryRun(c: Config, ops: seq<Op>, point: Option<Node>, tail: set<Node>)
    requires KeepsSpec(ops, c.spec)
    requires Marked(Run(Fresh(c), ops).lru, point, tail, Run(Fresh(c), ops).tailLen)
    ensures point == None <==> c.spec == 0 || Run(Fresh(c), ops).lru == []
  {
    RunExact(Fresh(c), ops);
    var s := Run(Fresh(c), ops);
    MarkedPoint(s.lru, point, tail, s.tailLen);
    TailIsProper(|s.lru|, c.spec);
  }

  // ---------- insertion at the head ----------

  /** Most recent first, and nothing newer than the clock. */
  ghost predicate Sorted(s: State, clock: Time) {
    && (forall i :: 0 <= i < |s.lru| ==> s.lru[i] in s.time && s.time[s.lru[i]] <= clock)
    && (forall i, j :: 0 <= i < j < |s.lru| ==>
          s.lru[i] in s.time && s.lru[j] in s.time && s.time[s.lru[i]] >= s.time[s.lru[j]])
  }

  function Clock(op: Op, clock: Time): Time {
    match op
    case Add(_, now) => now
    case Access(_, _, now) => now
    case _ => clock
  }

  predicate Forward(ops: seq<Op>, clock: Time)
    decreases |ops|
  {
    ops == [] || (Clock(ops[0], clock) >= clock && Forward(ops[1..], Clock(ops[0], clock)))
  }

  function LastClock(ops: seq<Op>, clock: Time): Time
    decreases |ops|
  {
    if ops == [] then clock else LastClock(ops[1..], Clock(ops[0], clock))
  }

  lemma AddSorted(s: State, n: Node, now: Time, clock: Time)
    requires Valid(s) && s.config.spec == 0 && Sorted(s, clock) && now >= clock
    ensures Sorted(Added(s, n, now), now)
  {
    hide Distinct, TailLength, Insert;
    if n !in s.lru {
      InsertFacts(s.lru, 0, n);
    }
  }

  lemma RemoveSorted(s: State, n: Node, clock: Time)
    requires Valid(s) && Sorted(s, clock)
    ensures Sorted(Removed(s, n), clock)
  {
    hide Distinct, TailLength, Without, IndexOf;
    if n in s.lru {
      WithoutFacts(s.lru, IndexOf(s.lru, n));
    }
  }

  lemma AccessSorted(s: State, n: Node, mode: Mode, now: Time, clock: Time)
    requires Valid(s) && Sorted(s, clock) && now >= clock
    ensures Sorted(Accessed(s, n, mode, now), now)
  {
    hide Distinct, TailLength, Without, IndexOf;
    if Due(s, n, mode, now) {
      var i := IndexOf(s.lru, n);
      ToFront(s.lru, i);
      var s' := Accessed(s, n, mode, now);
      OthersDiffer(s.lru, i);
    }
  }

  lemma OthersDiffer(s: seq<Node>, i: nat)
    requires Distinct(s) && i < |s|
    ensures forall j :: 0 <= j < |s| && j != i ==> s[j] != s[i]
  {
  }

  lemma ReplaceSorted(s: State, a: Node, b: Node, clock: Time)
    requires Valid(s) && Sorted(s, clock)
    ensures Sorted(Replaced(s, a, b), clock)
  {
    hide TailLength, IndexOf;
  }

  lemma {:induction false} RunSorted(s: State, ops: seq<Op>, clock: Time)
    requires Valid(s) && Exact(s) && s.config.spec == 0 && Sorted(s, clock)
    requires KeepsSpec(ops, 0) && Forward(ops, clock)
    ensures Valid(Run(s, ops)) && Sorted(Run(s, ops), LastClock(ops, clock)) && LastClock(ops, clock) >= clock
    decreases |ops|
  {
    if ops != [] {
      StepExact(s, ops[0]);
      match ops[0] {
        case Add(n, now) => AddSorted(s, n, now, clock);
        case Remove(n) => RemoveSorted(s, n, clock);
        case Replace(a, b) => ReplaceSorted(s, a, b, clock);
        case Access(n, mode, now) => AccessSorted(s, n, mode, now, clock);
        case SetConfig(c) =>
      }
      RunSorted(Apply(s, ops[0]), ops[1..], Clock(ops[0], clock));
    }
  }

  /** With insertion at the head and a clock that never goes back, the node next in line for
      eviction is the one stamped longest ago: its age is the largest, whatever `i` is, and so the
      age projected `length` places before it is not larger. */
  lemma TailIsOldest(c: Config, ops: seq<Op>, now: Time, i: nat)
    requires c.spec == 0 && KeepsSpec(ops, 0) && Forward(ops, 0) && now >= LastClock(ops, 0)
    requires i < |Run(Fresh(c), ops).lru|
    ensures var s := Run(Fresh(c), ops);
            && (forall j :: 0 <= j < |s.lru| ==> s.lru[j] in s.time)
            && Age(s, i, now) == now - s.time[s.lru[i]] <= Age(s, |s.lru| - 1, now)
  {
    RunSorted(Fresh(c), ops, 0);
    var s := Run(Fresh(c), ops);
    hide Run, Valid;
    var last := |s.lru| - 1;
    assert s.time[s.lru[i]] >= s.time[s.lru[last]];
  }
}
