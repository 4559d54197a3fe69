/** The chained hash table: an array of bucket heads, and the chain of each bucket threaded through
    the next hooks of the nodes themselves. */
module HashTable {
  import opened Basics

  class Node {
    const key: Key
    var next: Node?
    var accessible: bool

    constructor (k: Key)
      ensures key == k && next == null && !accessible
    {
      key, next, accessible := k, null, false;
    }
  }

  // ---------- one bucket ----------

  function First(s: seq<Node>): Node? {
    if s == [] then null else s[0]
  }

  function After(s: seq<Node>, i: nat): Node? {
    if i + 1 < |s| then s[i + 1] else null
  }

  /** Following the hooks from `head` runs through `s` and stops. */
  ghost predicate Spelled(head: Node?, s: seq<Node>) reads (set n | n in s)`next {
    && head == First(s)
    && (forall i {:trigger After(s, i)} :: 0 <= i < |s| ==> s[i].next == After(s, i))
  }

  ghost predicate DistinctKeys(s: seq<Node>) {
    forall i, j :: 0 <= i < j < |s| ==> s[i] != s[j] && s[i].key != s[j].key
  }

  /** Where the key is in the chain, or its length. */
  function Position(s: seq<Node>, k: Key): (i: nat)
    ensures i <= |s| && (forall j :: 0 <= j < i ==> s[j].key != k) && (i < |s| ==> s[i].key == k)
  {
    if s == [] || s[0].key == k then 0 else 1 + Position(s[1..], k)
  }

  /** The chain with `n` bound: in the place of the node with its key, or else in front. */
  function Bound(s: seq<Node>, n: Node): seq<Node> {
    var i := Position(s, n.key);
    if i < |s| then s[i := n] else [n] + s
  }

  method FindInBucket(heads: array<Node?>, b: nat, k: Key, ghost s: seq<Node>) returns (n: Node?)
    requires b < heads.Length && Spelled(heads[b], s)
    ensures var i := Position(s, k); n == if i < |s| then s[i] else null
  {
    n := heads[b];
    ghost var j := 0;
    while n != null && n.key != k
      invariant 0 <= j <= |s| && n == if j < |s| then s[j] else null
      invariant forall x :: 0 <= x < j ==> s[x].key != k
      decreases |s| - j
    {
      assert n.next == After(s, j);
      n, j := n.next, j + 1;
    }
  }

  /** The node with the key and the one before it, if any. */
  method FindWithPrev(heads: array<Node?>, b: nat, k: Key, ghost s: seq<Node>) returns (prev: Node?, curr: Node?)
    requires b < heads.Length && Spelled(heads[b], s)
    ensures var i := Position(s, k);
            curr == (if i < |s| then s[i] else null) && prev == if i > 0 then s[i - 1] else null
  {
    prev, curr := null, heads[b];
    ghost var j := 0;
    while curr != null && k != curr.key
      invariant 0 <= j <= |s| && curr == (if j < |s| then s[j] else null) && prev == if j > 0 then s[j - 1] else null
      invariant forall x :: 0 <= x < j ==> s[x].key != k
      decreases |s| - j
    {
      assert curr.next == After(s, j);
      prev, curr, j := curr, curr.next, j + 1;
    }
  }

  method InsertOrReplaceInBucket(heads: array<Node?>, b: nat, node: Node, ghost s: seq<Node>) returns (prior: Node?)
    requires b < heads.Length && Spelled(heads[b], s) && DistinctKeys(s) && node !in s
    modifies heads, node`next, (set n | n in s)`next
    ensures Spelled(heads[b], Bound(s, node))
    ensures forall c :: 0 <= c < heads.Length && c != b ==> heads[c] == old(heads[c])
    ensures var i := Position(s, node.key); prior == if i < |s| then s[i] else null
    ensures prior != null ==> prior.next == old(prior.next)
  {
    hide Position, After, First, Bound;
    ghost var i, t := Position(s, node.key), Bound(s, node);
    BoundAfter(s, node);
    var prev, curr := FindWithPrev(heads, b, node.key, s);
    prior := curr;
    if curr == null {
      node.next := heads[b];
      heads[b] := node;
      forall x | 0 <= x < |t| ensures t[x].next == After(t, x) {
        if x > 0 {
          assert s[x - 1].next == After(s, x - 1);
        }
      }
    } else {
      node.next := curr.next;
      if prev != null {
        prev.next := node;
      } else {
        heads[b] := node;
      }
      forall x | 0 <= x < |t| ensures t[x].next == After(t, x) {
        assert old(s[x].next) == After(s, x);
      }
    }
  }

  lemma BoundAfter(s: seq<Node>, n: Node)
    ensures var i, t := Position(s, n.key), Bound(s, n);
            if i < |s| then
              && |t| == |s| && t[i] == n && (forall x {:trigger t[x]} :: 0 <= x < |s| && x != i ==> t[x] == s[x])
              && (forall x {:trigger After(t, x)} :: 0 <= x < |s| ==>
                    After(t, x) == if x + 1 == i then n else After(s, x))
              && First(t) == if i == 0 then n else First(s)
            else
              && |t| == |s| + 1 && t[0] == n && (forall x {:trigger t[x]} :: 0 < x < |t| ==> t[x] == s[x - 1])
              && After(t, 0) == First(s)
              && (forall x {:trigger After(t, x)} :: 0 < x < |t| ==> After(t, x) == After(s, x - 1))
              && First(t) == n
  {
  }

  lemma WithoutAfter(s: seq<Node>, i: nat)
    requires i < |s|
    ensures var t := Without(s, i);
            && |t| == |s| - 1 && (forall x {:trigger t[x]} :: 0 <= x < |t| ==> t[x] == if x < i then s[x] else s[x + 1])
            && (forall x {:trigger After(t, x)} :: 0 <= x < |t| ==>
                  After(t, x) == if x + 1 == i then After(s, i) else if x < i then After(s, x) else After(s, x + 1))
            && First(t) == if i == 0 then After(s, 0) else First(s)
  {
  }

  method RemoveFromBucket(heads: array<Node?>, b: nat, node: Node, ghost s: seq<Node>, ghost i: nat)
    requires b < heads.Length && Spelled(heads[b], s) && DistinctKeys(s) && i < |s| && s[i] == node
    modifies heads, (set n | n in s)`next
    ensures Spelled(heads[b], Without(s, i))
    ensures forall c :: 0 <= c < heads.Length && c != b ==> heads[c] == old(heads[c])
  {
    hide Position, After, First, Without;
    ghost var t := Without(s, i);
    WithoutAfter(s, i);
    assert i == Position(s, node.key);
    var prev, _ := FindWithPrev(heads, b, node.key, s);
    assert node.next == After(s, i);
    if prev != null {
      prev.next := node.next;
    } else {
      heads[b] := node.next;
    }
    forall x | 0 <= x < |t| ensures t[x].next == After(t, x) {
      assert old(s[x].next) == After(s, x) && old(s[x + 1].next) == After(s, x + 1);
    }
  }

  // ---------- the table as a map ----------

  /** The chains hold exactly the bound nodes, each once, in its key's bucket. */
  ghost predicate Holds(chains: seq<seq<Node>>, bound: map<Key, Node>, hash: Key -> nat) {
    && |chains| > 0
    && (forall b :: 0 <= b < |chains| ==> DistinctKeys(chains[b]))
    && (forall b, n :: 0 <= b < |chains| && n in chains[b] ==>
          n.key in bound && bound[n.key] == n && BucketOf(hash, n.key, |chains|) == b)
    && (forall k :: k in bound ==> bound[k].key == k && bound[k] in chains[BucketOf(hash, k, |chains|)])
  }

  lemma BoundMembers(s: seq<Node>, n: Node, x: Node)
    requires DistinctKeys(s) && n !in s
    ensures x in Bound(s, n) <==> x == n || (x in s && x.key != n.key)
    ensures DistinctKeys(Bound(s, n))
  {
    var i := Position(s, n.key);
    if i < |s| {
      assert s[i := n][i] == n;
      if x in s && x.key != n.key {
        var j :| 0 <= j < |s| && s[j] == x;
        assert s[i := n][j] == x;
      }
    }
  }

  lemma BindKeeps(chains: seq<seq<Node>>, bound: map<Key, Node>, hash: Key -> nat, n: Node)
    requires Holds(chains, bound, hash) && !(n.key in bound && bound[n.key] == n)
    ensures var b := BucketOf(hash, n.key, |chains|);
            && n !in chains[b] && Position(chains[b], n.key) <= |chains[b]|
            && (Position(chains[b], n.key) < |chains[b]| <==> n.key in bound)
            && (n.key in bound ==> chains[b][Position(chains[b], n.key)] == bound[n.key])
            && Holds(chains[b := Bound(chains[b], n)], bound[n.key := n], hash)
  {
    var b := BucketOf(hash, n.key, |chains|);
    var i := Position(chains[b], n.key);
    if i < |chains[b]| {
      assert chains[b][i] in chains[b];
    }
    BoundMembers(chains[b], n, n);
    var chains', bound' := chains[b := Bound(chains[b], n)], bound[n.key := n];
    forall c: nat, x: Node | 0 <= c < |chains'| && x in chains'[c]
      ensures x.key in bound' && bound'[x.key] == x && BucketOf(hash, x.key, |chains'|) == c
    {
      if c == b {
        BoundMembers(chains[b], n, x);
      }
    }
    forall k | k in bound' ensures bound'[k].key == k && bound'[k] in chains'[BucketOf(hash, k, |chains'|)] {
      if k != n.key {
        BoundMembers(chains[b], n, bound[k]);
      }
    }
  }

  lemma BoundAt(chains: seq<seq<Node>>, bound: map<Key, Node>, hash: Key -> nat, k: Key)
    requires Holds(chains, bound, hash) && k in bound
    ensures var s := chains[BucketOf(hash, k, |chains|)];
            var i := Position(s, k);
            i < |s| && s[i] == bound[k]
  {
    hide BucketOf;
    var s := chains[BucketOf(hash, k, |chains|)];
    assert bound[k] in s;
    assert s[Position(s, k)] in s;
  }

  lemma UnbindKeeps(chains: seq<seq<Node>>, bound: map<Key, Node>, hash: Key -> nat, k: Key, b: nat, i: nat)
    requires Holds(chains, bound, hash) && k in bound && b == BucketOf(hash, k, |chains|)
    requires i < |chains[b]| && chains[b][i] == bound[k]
    ensures Holds(chains[b := Without(chains[b], i)], bound - {k}, hash)
  {
    hide Without, BucketOf, DistinctKeys;
    var s := chains[b];
    var chains', bound' := chains[b := Without(s, i)], bound - {k};
    WithoutMembers(s, i, bound[k]);
    forall c: nat, x: Node | 0 <= c < |chains'| && x in chains'[c]
      ensures x.key in bound' && bound'[x.key] == x && BucketOf(hash, x.key, |chains'|) == c
    {
      if c == b {
        WithoutMembers(s, i, x);
      }
    }
    forall j | j in bound' ensures bound'[j].key == j && bound'[j] in chains'[BucketOf(hash, j, |chains'|)] {
      WithoutMembers(s, i, bound[j]);
    }
  }

  lemma WithoutMembers(s: seq<Node>, i: nat, x: Node)
    requires i < |s| && DistinctKeys(s)
    ensures x in Without(s, i) <==> x in s && x != s[i]
    ensures DistinctKeys(Without(s, i))
  {
    assert s == s[..i] + [s[i]] + s[i + 1..];
  }

  lemma KeysAfter(bound: map<Key, Node>, k: Key, n: Node)
    ensures |bound[k := n]| == |bound| + if k in bound then 0 else 1
  {
    var bound' := bound[k := n];
    assert bound'.Keys == bound.Keys + {k};
    assert |bound'| == |bound'.Keys| && |bound| == |bound.Keys|;
  }

  // ---------- the container ----------

  datatype Outcome = Made(node: Node?) | Threw

  class Table {
    const hash: Key -> nat
    const heads: array<Node?>
    var numKeys: nat

    ghost var chains: seq<seq<Node>>
    /** The map from keys to nodes that the table stands for. */
    ghost var bound: map<Key, Node>
    /** Every node the table may be asked about. */
    ghost var nodes: set<Node>

    /** The hooks spell the chains, and the chains hold what is bound. */
    ghost predicate Threaded() reads `chains, `bound, `nodes, heads, nodes`next {
      && |chains| == heads.Length > 0
      && Holds(chains, bound, hash)
      && (forall k :: k in bound ==> bound[k] in nodes)
      && (forall b, n :: 0 <= b < |chains| && n in chains[b] ==> n in nodes)
      && (forall b :: 0 <= b < |chains| ==> Spelled(heads[b], chains[b]))
    }

    /** A node is accessible if and only if it is bound, and the key count is the map's size. */
    ghost predicate Valid() reads this, heads, nodes {
      && Threaded()
      && (forall n :: n in nodes ==> (n.accessible <==> n.key in bound && bound[n.key] == n))
      && numKeys == |bound|
    }

    constructor (h: Key -> nat, bucketsPower: nat)
      ensures Valid() && bound == map[] && fresh(heads) && nodes == {}
    {
      hash := h;
      heads := new Node?[Pow2(bucketsPower)](_ => null);
      numKeys := 0;
      chains := seq(Pow2(bucketsPower), _ => []);
      bound, nodes := map[], {};
    }

    /** A node the table has not seen yet. */
    ghost method Adopt(n: Node)
      requires Valid() && n !in nodes && !n.accessible
      modifies `nodes
      ensures Valid() && nodes == old(nodes) + {n}
    {
      nodes := nodes + {n};
    }

    ghost predicate IsBound(n: Node) reads this {
      n.key in bound && bound[n.key] == n
    }

    method Bind(node: Node) returns (prior: Node?)
      requires Threaded() && node in nodes && !IsBound(node)
      modifies heads, `chains, `bound, nodes`next
      ensures Threaded()
      ensures bound == old(bound)[node.key := node]
      ensures prior == if node.key in old(bound) then old(bound)[node.key] else null
      ensures prior != null ==> prior.key == node.key
      ensures var b := BucketOf(hash, node.key, |old(chains)|);
              && chains == old(chains)[b := Bound(old(chains)[b], node)]
              && (forall n :: n in nodes && n != node && n !in old(chains)[b] ==> n.next == old(n.next))
    {
      hide Bound, Position, BucketOf, Holds, DistinctKeys;
      ghost var b := BucketOf(hash, node.key, |chains|);
      ghost var s := chains[b];
      BindKeeps(chains, bound, hash, node);
      Apart(chains, bound, hash, b, node);
      BoundSubset(s, node);
      prior := InsertOrReplaceInBucket(heads, BucketOf(hash, node.key, heads.Length), node, s);
      chains, bound := chains[b := Bound(s, node)], bound[node.key := node];
    }

    /** Marks the node just bound, and unmarks the one it replaced or counts the new key. */
    method Commit(node: Node, prior: Node?, ghost before: map<Key, Node>)
      requires Threaded() && node in nodes && bound == before[node.key := node]
      requires prior == (if node.key in before then before[node.key] else null) && prior != node
      requires forall n :: n in nodes ==> (n.accessible <==> n.key in before && before[n.key] == n)
      requires numKeys == |before| && (prior != null ==> prior in nodes && prior.key == node.key)
      modifies `numKeys, nodes`accessible
      ensures Valid()
    {
      hide Threaded;
      KeysAfter(before, node.key, node);
      node.accessible := true;
      if prior != null {
        prior.accessible := false;
      } else {
        numKeys := numKeys + 1;
      }
    }

    method Unbind(node: Node)
      requires Threaded() && IsBound(node)
      modifies heads, `chains, `bound, nodes`next
      ensures Threaded()
      ensures bound == old(bound) - {node.key}
      ensures var b := BucketOf(hash, node.key, |old(chains)|);
              var i := Position(old(chains)[b], node.key);
              i < |old(chains)[b]| && chains == old(chains)[b := Without(old(chains)[b], i)]
    {
      hide Without, Position, BucketOf, Holds, DistinctKeys;
      ghost var b := BucketOf(hash, node.key, |chains|);
      ghost var s := chains[b];
      ghost var i := Position(s, node.key);
      BoundAt(chains, bound, hash, node.key);
      UnbindKeeps(chains, bound, hash, node.key, b, i);
      Apart(chains, bound, hash, b, node);
      WithoutSubset(s, i);
      RemoveFromBucket(heads, BucketOf(hash, node.key, heads.Length), node, s, i);
      chains, bound := chains[b := Without(s, i)], bound - {node.key};
    }

    method Find(k: Key) returns (n: Node?)
      requires Valid()
      ensures n == if k in bound then bound[k] else null
    {
      hide Position, BucketOf, Holds;
      FoundInBucket(chains, bound, hash, k);
      n := FindInBucket(heads, BucketOf(hash, k, heads.Length), k, chains[BucketOf(hash, k, |chains|)]);
    }

    method Insert(node: Node) returns (ok: bool)
      requires Valid() && node in nodes
      modifies this, heads, nodes
      ensures Valid() && nodes == old(nodes)
      ensures ok <==> node.key !in old(bound)
      ensures bound == if ok then old(bound)[node.key := node] else old(bound)
    {
      hide Position, BucketOf, Holds, Bound;
      ok := false;
      if !node.accessible {
        var existing := Find(node.key);
        if existing == null {
          var prior := Bind(node);
          Commit(node, prior, old(bound));
          ok := true;
        }
      }
    }

    /** `throws` tells whether making a handle of the old node, if there is one, throws. Then the
        old node is put back, and every hook but the new node's own is as it was. */
    method InsertOrReplace(node: Node, throws: bool) returns (r: Outcome)
      requires Valid() && node in nodes
      modifies this, heads, nodes
      ensures Valid() && nodes == old(nodes)
      ensures r == if old(IsBound(node)) then Made(null)
                   else if node.key !in old(bound) then Made(null)
                   else if throws then Threw else Made(old(bound)[node.key])
      ensures bound == if r == Threw then old(bound) else old(bound)[node.key := node]
      ensures r == Threw ==> chains == old(chains) && numKeys == old(numKeys) && Restored(node)
    {
      hide Position, BucketOf, Holds, Bound;
      r := Made(null);
      if !node.accessible {
        assert !IsBound(node);
        var prior := Bind(node);
        if prior != null && throws {
          BindBack(old(chains), old(bound), hash, node);
          var _ := Bind(prior);
          SameHooks(node);
          r := Threw;
        } else {
          Commit(node, prior, old(bound));
          r := Made(prior);
        }
      }
    }

    method ReplaceIf(prior: Node, node: Node, holds: bool) returns (ok: bool)
      requires Valid() && prior in nodes && node in nodes && prior.key == node.key && !IsBound(node)
      modifies this, heads, nodes
      ensures Valid() && nodes == old(nodes)
      ensures ok <==> old(IsBound(prior)) && holds
      ensures bound == if ok then old(bound)[node.key := node] else old(bound)
      ensures numKeys == old(numKeys)
    {
      hide Position, BucketOf, Holds, Bound;
      ok := prior.accessible && holds;
      if ok {
        var replaced := Bind(node);
        Commit(node, replaced, old(bound));
      }
    }

    method Remove(node: Node) returns (ok: bool)
      requires Valid() && node in nodes
      modifies this, heads, nodes
      ensures Valid() && nodes == old(nodes)
      ensures ok <==> old(IsBound(node))
      ensures bound == if ok then old(bound) - {node.key} else old(bound)
    {
      ok := node.accessible;
      if ok {
        Discard(node);
      }
    }

    method Discard(node: Node)
      requires Valid() && node in nodes && IsBound(node)
      modifies this, heads, nodes
      ensures Valid() && nodes == old(nodes) && bound == old(bound) - {node.key}
    {
      hide Position, BucketOf, Holds, Without, Spelled;
      Unbind(node);
      assert |bound| == |old(bound)| - 1 by { assert bound.Keys == old(bound).Keys - {node.key}; }
      node.accessible := false;
      numKeys := numKeys - 1;
    }

    /** The handle is made first: when that throws, nothing has changed yet. */
    method RemoveIf(node: Node, holds: bool, throws: bool) returns (r: Outcome)
      requires Valid() && node in nodes
      modifies this, heads, nodes
      ensures Valid() && nodes == old(nodes)
      ensures r == if !(old(IsBound(node)) && holds) then Made(null) else if throws then Threw else Made(node)
      ensures bound == if r == Made(node) then old(bound) - {node.key} else old(bound)
      ensures r == Threw ==> chains == old(chains) && Restored(node)
    {
      r := Made(null);
      if node.accessible && holds {
        if throws {
          r := Threw;
        } else {
          Discard(node);
          r := Made(node);
        }
      }
    }

    /** The same chains spelled twice leave the same heads and hooks. */
    twostate lemma SameHooks(node: Node)
      requires old(Threaded()) && Threaded() && chains == old(chains) && nodes == old(nodes)
      requires forall n :: n in nodes ==> n.accessible == old(n.accessible)
      requires forall n :: n in nodes && n != node && n !in chains[BucketOf(hash, node.key, |chains|)] ==>
               n.next == old(n.next)
      ensures Restored(node)
    {
      hide BucketOf, Holds;
      forall c | 0 <= c < heads.Length ensures heads[c] == old(heads[c]) {
        assert Spelled(heads[c], chains[c]) && old(Spelled(heads[c], chains[c]));
      }
      var b := BucketOf(hash, node.key, |chains|);
      forall n | n in nodes && n != node ensures n.next == old(n.next) {
        if n in chains[b] {
          var i :| 0 <= i < |chains[b]| && chains[b][i] == n;
          assert Spelled(heads[b], chains[b]) && old(Spelled(heads[b], chains[b]));
          assert n.next == After(chains[b], i) == old(n.next);
        }
      }
    }

    twostate predicate Restored(node: Node) reads this, heads, nodes {
      && heads[..] == old(heads[..])
      && (forall n :: n in old(nodes) && n in nodes && n != node ==>
            n.next == old(n.next) && n.accessible == old(n.accessible))
    }
  }

  lemma BoundSubset(s: seq<Node>, n: Node)
    ensures forall x :: x in Bound(s, n) ==> x in s || x == n
  {
  }

  lemma WithoutSubset(s: seq<Node>, i: nat)
    requires i < |s|
    ensures forall n :: n in Without(s, i) ==> n in s
  {
  }

  lemma FoundInBucket(chains: seq<seq<Node>>, bound: map<Key, Node>, hash: Key -> nat, k: Key)
    requires Holds(chains, bound, hash)
    ensures var s := chains[BucketOf(hash, k, |chains|)];
            var i := Position(s, k);
            if k in bound then i < |s| && s[i] == bound[k] else i == |s|
  {
    hide BucketOf;
    var s := chains[BucketOf(hash, k, |chains|)];
    if k in bound {
      BoundAt(chains, bound, hash, k);
    } else {
      assert forall x :: x in s ==> x.key != k;
    }
  }

  /** Binding the old node again undoes the replacement. */
  lemma BindBack(chains: seq<seq<Node>>, bound: map<Key, Node>, hash: Key -> nat, n: Node)
    requires Holds(chains, bound, hash) && n.key in bound && bound[n.key] != n
    ensures var b := BucketOf(hash, n.key, |chains|);
            && Bound(Bound(chains[b], n), bound[n.key]) == chains[b] && bound[n.key] in chains[b]
            && (forall x :: x in Bound(chains[b], n) ==> x in chains[b] || x == n)
            && chains[b := Bound(chains[b], n)][b := chains[b]] == chains
            && bound[n.key := n][n.key := bound[n.key]] == bound
  {
    hide BucketOf;
    BoundAt(chains, bound, hash, n.key);
    var s := chains[BucketOf(hash, n.key, |chains|)];
    var i := Position(s, n.key);
    var t := s[i := n];
    BoundSubset(s, n);
    assert t[i].key == n.key && forall j :: 0 <= j < i ==> t[j] == s[j];
    assert Position(t, n.key) == i;
    assert t[i := s[i]] == s;
  }

  /** The other buckets' nodes are not touched when one bucket changes. */
  lemma Apart(chains: seq<seq<Node>>, bound: map<Key, Node>, hash: Key -> nat, b: nat, node: Node)
    requires Holds(chains, bound, hash) && b == BucketOf(hash, node.key, |chains|)
    ensures DistinctKeys(chains[b]) && forall n :: n in chains[b] ==> n.key in bound && bound[n.key] == n
    ensures node.key in bound ==> bound[node.key].key == node.key
    ensures forall c, n :: 0 <= c < |chains| && c != b && n in chains[c] ==> n != node && n !in chains[b]
  {
  }

  function Pow2(n: nat): (p: nat)
    ensures p > 0
  {
    if n == 0 then 1 else 2 * Pow2(n - 1)
  }
}
