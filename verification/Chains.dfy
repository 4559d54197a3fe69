/** Chained items: each parent owns one chain of children, a stack threaded through the children's
    next hooks, whose head is found through a table keyed by the parent. And the slots all items
    live in: which are handed out, held, linked, or given back. */
module Chains {
  import opened Basics

  type Item = int

  datatype Result<T> = Ok(value: T) | InvalidArgument

  datatype ReleaseRes = Released | NotRecycled | Recycled

  type ChainMap = map<Item, seq<Item>>

  function ChainOf(c: ChainMap, p: Item): seq<Item> {
    if p in c then c[p] else []
  }

  // ---------- what the hooks and the table spell ----------

  /** Following the next hooks from the head runs through `s` and stops. */
  ghost predicate Spelled(next: map<Item, Item>, s: seq<Item>) {
    && (forall i :: 0 <= i < |s| - 1 ==> s[i] in next && next[s[i]] == s[i + 1])
    && (s != [] ==> s[|s| - 1] !in next)
  }

  predicate Linked(c: ChainMap, parentOf: map<Item, Item>, x: Item) {
    x in parentOf && parentOf[x] in c && x in c[parentOf[x]]
  }

  /** Each chain is a finite list without repetitions, keyed by its parent, with only its head in
      the table. Chains of different parents share no child, since a child has one key. */
  ghost predicate Shape(c: ChainMap, next: map<Item, Item>, parentOf: map<Item, Item>, heads: map<Item, Item>) {
    && heads.Keys == c.Keys
    && (forall p :: p in c ==> c[p] != [] && heads[p] == c[p][0] && Spelled(next, c[p]) && Distinct(c[p]))
    && (forall p, x :: p in c && x in c[p] ==> x in parentOf && parentOf[x] == p)
    && (forall x :: x in next ==> Linked(c, parentOf, x))
  }

  // ---------- the chain operations on chains ----------

  function Pushed(c: ChainMap, p: Item, x: Item): ChainMap {
    c[p := [x] + ChainOf(c, p)]
  }

  function Popped(c: ChainMap, p: Item): ChainMap
    requires p in c && c[p] != []
  {
    if |c[p]| == 1 then c - {p} else c[p := c[p][1..]]
  }

  function Substituted(c: ChainMap, p: Item, i: nat, x: Item): ChainMap
    requires p in c && i < |c[p]|
  {
    c[p := c[p][i := x]]
  }

  function Transferred(c: ChainMap, p: Item, q: Item): ChainMap
    requires p in c
  {
    (c - {p})[q := c[p]]
  }

  lemma PushShape(c: ChainMap, next: map<Item, Item>, parentOf: map<Item, Item>, heads: map<Item, Item>, p: Item,
      x: Item)
    requires Shape(c, next, parentOf, heads)
    requires x in parentOf && parentOf[x] == p && !Linked(c, parentOf, x)
    ensures Shape(Pushed(c, p, x), if p in heads then next[x := heads[p]] else next, parentOf, heads[p := x])
  {
    hide Spelled, Distinct;
    var c', next' := Pushed(c, p, x), if p in heads then next[x := heads[p]] else next;
    assert x !in next && x !in ChainOf(c, p);
    PushSpells(next, ChainOf(c, p), x);
    forall q | q in c' ensures Spelled(next', c'[q]) && Distinct(c'[q]) {
      if q != p {
        assert x !in c[q];
        SameSpelling(next, next', c[q]);
      }
    }
    forall y | y in next' ensures Linked(c', parentOf, y) {
      assert y == x || Linked(c, parentOf, y);
      assert parentOf[y] == p ==> y in ChainOf(c, p) || y == x;
    }
  }

  lemma PushSpells(next: map<Item, Item>, s: seq<Item>, x: Item)
    requires Spelled(next, s) && Distinct(s) && x !in s && x !in next
    ensures Spelled(if s == [] then next else next[x := s[0]], [x] + s) && Distinct([x] + s)
    ensures s == [] ==> Spelled(next, [x])
  {
  }

  lemma PopShape(c: ChainMap, next: map<Item, Item>, parentOf: map<Item, Item>, heads: map<Item, Item>, p: Item)
    requires Shape(c, next, parentOf, heads) && p in c
    ensures Shape(Popped(c, p), next - {c[p][0]}, parentOf,
                  if c[p][0] in next then heads[p := next[c[p][0]]] else heads - {p})
    ensures c[p][0] in next <==> |c[p]| > 1
  {
    hide Distinct, Spelled;
    var x := c[p][0];
    var c', next' := Popped(c, p), next - {x};
    PopSpells(next, c[p]);
    assert x in c[p] && parentOf[x] == p;
    forall q | q in c' ensures Spelled(next', c'[q]) && Distinct(c'[q]) {
      if q != p {
        assert x !in c[q];
        SameSpelling(next, next', c[q]);
      }
    }
    forall y | y in next' ensures Linked(c', parentOf, y) {
      assert Linked(c, parentOf, y);
      assert parentOf[y] == p ==> y in c[p][1..] by { assert c[p] == [x] + c[p][1..]; }
    }
  }

  lemma PopSpells(next: map<Item, Item>, s: seq<Item>)
    requires Spelled(next, s) && Distinct(s) && s != []
    ensures Spelled(next - {s[0]}, s[1..]) && Distinct(s[1..])
    ensures s[0] in next <==> |s| > 1
    ensures |s| > 1 ==> next[s[0]] == s[1]
  {
    assert |s| > 1 ==> s[0] in next && next[s[0]] == s[1];
  }

  /** A chain is spelled the same when the hooks of its children are. */
  lemma SameSpelling(next: map<Item, Item>, next': map<Item, Item>, s: seq<Item>)
    requires Spelled(next, s)
    requires forall y :: y in s ==> (y in next <==> y in next') && (y in next ==> next[y] == next'[y])
    ensures Spelled(next', s)
  {
    forall j | 0 <= j < |s| ensures (s[j] in next <==> s[j] in next') && (s[j] in next ==> next[s[j]] == next'[s[j]]) {
      var y := s[j];
      assert y in s;
    }
  }

  function Members(s: seq<Item>): set<Item> {
    set x | x in s
  }

  /** The next hooks once `x` takes the place of the child at position `i`. */
  function Rehooked(next: map<Item, Item>, s: seq<Item>, i: nat, x: Item): map<Item, Item>
    requires i < |s|
  {
    var n1 := if i > 0 then next[s[i - 1] := x] else next;
    (if s[i] in next then n1[x := next[s[i]]] else n1) - {s[i]}
  }

  lemma RehookedSpells(next: map<Item, Item>, s: seq<Item>, i: nat, x: Item)
    requires Spelled(next, s) && Distinct(s) && i < |s| && x !in s && x !in next
    ensures Spelled(Rehooked(next, s, i, x), s[i := x]) && Distinct(s[i := x])
  {
  }

  lemma SubstituteShape(c: ChainMap, next: map<Item, Item>, parentOf: map<Item, Item>, heads: map<Item, Item>, p: Item,
      i: nat, x: Item)
    requires Shape(c, next, parentOf, heads) && p in c && i < |c[p]|
    requires x in parentOf && parentOf[x] == p && !Linked(c, parentOf, x)
    ensures Shape(Substituted(c, p, i, x), Rehooked(next, c[p], i, x), parentOf,
                  if i == 0 then heads[p := x] else heads)
  {
    hide Distinct, Spelled, Rehooked;
    var c', next' := Substituted(c, p, i, x), Rehooked(next, c[p], i, x);
    assert x !in c[p] && x !in next;
    RehookedSpells(next, c[p], i, x);
    RehookedElsewhere(next, c[p], i, x);
    forall q | q in c' && q != p ensures Spelled(next', c'[q]) {
      forall y | y in c[q] ensures y !in c[p] && y != x {
        assert parentOf[y] == q;
      }
      SameSpelling(next, next', c[q]);
    }
    forall y | y in next' ensures Linked(c', parentOf, y) {
      if y in c[p] || y == x {
        assert parentOf[y] == p;
        SubstitutedMembers(c[p], i, x, y);
      } else {
        assert Linked(c, parentOf, y);
      }
    }
    forall q, y | q in c' && y in c'[q] ensures y in parentOf && parentOf[y] == q {
      if q == p {
        SubstitutedMembers(c[p], i, x, y);
      }
    }
  }

  lemma RehookedElsewhere(next: map<Item, Item>, s: seq<Item>, i: nat, x: Item)
    requires i < |s|
    ensures forall y :: y !in s && y != x ==>
              (y in Rehooked(next, s, i, x) <==> y in next) && (y in next ==> Rehooked(next, s, i, x)[y] == next[y])
    ensures s[i] != x ==> s[i] !in Rehooked(next, s, i, x)
  {
    assert s[i] in s && (i > 0 ==> s[i - 1] in s);
  }

  lemma SubstitutedMembers(t: seq<Item>, i: nat, x: Item, z: Item)
    requires i < |t| && Distinct(t)
    ensures z in t[i := x] <==> z == x || (z in t && z != t[i])
  {
    assert t[i := x][i] == x;
    if z in t && z != t[i] {
      var j :| 0 <= j < |t| && t[j] == z;
      assert t[i := x][j] == z;
    }
  }

  function Rekeyed(parentOf: map<Item, Item>, s: seq<Item>, q: Item): map<Item, Item> {
    map x | x in parentOf :: if x in s then q else parentOf[x]
  }

  lemma TransferShape(c: ChainMap, next: map<Item, Item>, parentOf: map<Item, Item>, heads: map<Item, Item>, p: Item,
      q: Item)
    requires Shape(c, next, parentOf, heads) && p in c && q !in c
    ensures Shape(Transferred(c, p, q), next, Rekeyed(parentOf, c[p], q), (heads - {p})[q := heads[p]])
  {
    hide Spelled, Distinct;
    var c', parentOf' := Transferred(c, p, q), Rekeyed(parentOf, c[p], q);
    forall r, x | r in c' && x in c'[r] ensures x in parentOf' && parentOf'[x] == r {
      if r != q {
        assert x in c[r];
      }
    }
    forall x | x in next ensures Linked(c', parentOf', x) {
      assert Linked(c, parentOf, x);
    }
  }

  lemma DiscardShape(c: ChainMap, next: map<Item, Item>, parentOf: map<Item, Item>, heads: map<Item, Item>, p: Item)
    requires Shape(c, next, parentOf, heads) && p in c
    ensures Shape(c - {p}, next - Members(c[p]), parentOf - Members(c[p]), heads - {p})
  {
    hide Spelled, Distinct;
    var c', next', parentOf' := c - {p}, next - Members(c[p]), parentOf - Members(c[p]);
    forall q, x | q in c' && x in c'[q] ensures x in parentOf' && parentOf'[x] == q {
      assert x in c[q] && parentOf[x] == q;
      assert x !in Members(c[p]);
    }
    forall q | q in c' ensures Spelled(next', c'[q]) {
      forall x | x in c[q] ensures x !in Members(c[p]) {
        assert parentOf[x] == q;
      }
      SameSpelling(next, next', c[q]);
    }
    forall x | x in next' ensures Linked(c', parentOf', x) {
      assert Linked(c, parentOf, x);
    }
  }

  // ---------- counting ----------

  lemma {:induction false} MembersSize(s: seq<Item>)
    requires Distinct(s)
    ensures |Members(s)| == |s|
  {
    if s == [] {
      assert Members(s) == {};
    } else {
      MembersSize(s[1..]);
      assert Members(s) == Members(s[1..]) + {s[0]};
    }
  }

  lemma RemovedSize(a: set<Item>, b: set<Item>)
    requires b <= a
    ensures |a - b| == |a| - |b|
  {
    assert a == (a - b) + b;
  }

  // ---------- all items ----------

  datatype State = State(
    // slots handed out by the memory allocator and not freed since
    live: set<Item>,
    // the key of a child is its parent; only children have an entry
    parentOf: map<Item, Item>,
    next: map<Item, Item>,
    refs: map<Item, nat>,
    inMM: set<Item>,
    accessible: set<Item>,
    // items another thread evicts or moves
    exclusive: set<Item>,
    hasChained: set<Item>,
    // the chained item table: parent to head of its chain
    heads: map<Item, Item>,
    numParents: int,
    numChildren: int,
    // what the above means: the chains, the linked children, the handles given out, and the slots
    // evicted and given to the caller instead of freed
    chains: ChainMap,
    kids: set<Item>,
    handles: map<Item, nat>,
    recycled: set<Item>)

  ghost predicate KidsOk(c: ChainMap, parentOf: map<Item, Item>, kids: set<Item>) {
    forall x :: x in kids <==> Linked(c, parentOf, x)
  }

  ghost predicate ChainsOk(s: State) {
    && Shape(s.chains, s.next, s.parentOf, s.heads)
    && s.hasChained == s.chains.Keys
    && KidsOk(s.chains, s.parentOf, s.kids)
    && s.numParents == |s.chains|
    && s.numChildren == |s.kids|
  }

  /** A linked child has exactly one reference, its parent's; elsewhere references are handles. */
  ghost predicate RefsOk(s: State, loose: set<Item>) {
    && s.live <= s.refs.Keys && s.live <= s.handles.Keys
    && (forall x :: x in s.live ==>
          if x in s.kids then s.refs[x] == 1 && s.handles[x] == 0 else s.refs[x] == s.handles[x])
    && (forall x :: x in s.parentOf ==> x !in s.accessible && (x in s.inMM <==> x in s.kids && x !in loose))
  }

  ghost predicate Held(s: State, x: Item) {
    x in s.handles && s.handles[x] > 0
  }

  ghost predicate Placed(s: State, x: Item) {
    x in s.inMM || x in s.accessible
  }

  /** Every slot handed out is held, linked, or given away for reuse, and only such slots are. The
      items in `loose` are on their way back to the allocator. */
  ghost predicate SlotsOk(s: State, loose: set<Item>) {
    && s.parentOf.Keys <= s.live && s.inMM <= s.live && s.accessible <= s.live
    && s.chains.Keys <= s.live && s.recycled <= s.live
    && s.chains.Keys !! s.parentOf.Keys
    && (forall x :: Held(s, x) ==> x in s.live)
    && (forall x :: x in s.exclusive ==> x in s.live && x !in s.parentOf && !Held(s, x) && Placed(s, x))
    && (forall x :: x in s.live ==> Held(s, x) || Placed(s, x) || x in s.recycled || x in loose)
    && (forall x :: x in s.recycled ==> !Held(s, x) && !Placed(s, x) && x !in s.parentOf && x !in s.chains)
  }

  ghost predicate ValidBut(s: State, loose: set<Item>) {
    ChainsOk(s) && RefsOk(s, loose) && SlotsOk(s, loose)
  }

  ghost predicate Valid(s: State) {
    ValidBut(s, {})
  }

  // ---------- adding and popping children ----------

  /** The caller holds the parent, and gives away the only handle of a child made for it. */
  ghost predicate CanAdd(s: State, p: Item, x: Item) {
    && p in s.live && Held(s, p) && p !in s.parentOf
    && x in s.parentOf && s.parentOf[x] == p && x !in s.kids && x in s.handles && s.handles[x] == 1
  }

  ghost function WithChild(s: State, p: Item, x: Item): State {
    s.(chains := Pushed(s.chains, p, x), kids := s.kids + {x},
       next := if p in s.heads then s.next[x := s.heads[p]] else s.next,
       heads := s.heads[p := x],
       hasChained := s.hasChained + {p},
       numParents := if p in s.hasChained then s.numParents else s.numParents + 1,
       numChildren := s.numChildren + 1,
       handles := s.handles[x := 0],
       inMM := s.inMM + {x})
  }

  lemma AddKids(c: ChainMap, parentOf: map<Item, Item>, kids: set<Item>, p: Item, x: Item)
    requires KidsOk(c, parentOf, kids) && x in parentOf && parentOf[x] == p
    ensures KidsOk(Pushed(c, p, x), parentOf, kids + {x})
  {
    forall y ensures y in kids + {x} <==> Linked(Pushed(c, p, x), parentOf, y) {
      assert y in Pushed(c, p, x)[p] <==> y == x || y in ChainOf(c, p);
    }
  }

  lemma AddChains(s: State, p: Item, x: Item)
    requires Valid(s) && CanAdd(s, p, x)
    ensures ChainsOk(WithChild(s, p, x))
  {
    hide Shape, KidsOk, RefsOk, SlotsOk, Linked;
    assert !Linked(s.chains, s.parentOf, x) by { KidLinked(s, x); }
    PushShape(s.chains, s.next, s.parentOf, s.heads, p, x);
    AddKids(s.chains, s.parentOf, s.kids, p, x);
    assert Pushed(s.chains, p, x).Keys == s.chains.Keys + {p};
  }

  lemma KidLinked(s: State, x: Item)
    requires ChainsOk(s)
    ensures x in s.kids <==> Linked(s.chains, s.parentOf, x)
  {
  }

  lemma AddRefs(s: State, p: Item, x: Item)
    requires Valid(s) && CanAdd(s, p, x)
    ensures RefsOk(WithChild(s, p, x), {})
  {
    hide ChainsOk;
  }

  lemma AddSlots(s: State, p: Item, x: Item)
    requires RefsOk(s, {}) && SlotsOk(s, {}) && CanAdd(s, p, x)
    ensures SlotsOk(WithChild(s, p, x), {})
  {
    var s' := WithChild(s, p, x);
    assert x in s.parentOf.Keys && x in s.live;
    forall y | y in s.live && y != x ensures Held(s', y) <==> Held(s, y) {
    }
  }

  lemma AddValid(s: State, p: Item, x: Item)
    requires Valid(s) && CanAdd(s, p, x)
    ensures Valid(WithChild(s, p, x))
  {
    AddChains(s, p, x);
    AddRefs(s, p, x);
    AddSlots(s, p, x);
  }

  /** The head of the chain leaves it, and its handle goes to the caller. */
  ghost function WithoutHead(s: State, p: Item): State
    requires p in s.chains && s.chains[p] != []
  {
    var x, last := s.chains[p][0], |s.chains[p]| == 1;
    s.(chains := Popped(s.chains, p), kids := s.kids - {x},
       next := s.next - {x},
       heads := if x in s.next then s.heads[p := s.next[x]] else s.heads - {p},
       hasChained := if last then s.hasChained - {p} else s.hasChained,
       numParents := if last then s.numParents - 1 else s.numParents,
       numChildren := s.numChildren - 1,
       handles := s.handles[x := 1],
       inMM := s.inMM - {x})
  }

  lemma PopKids(c: ChainMap, parentOf: map<Item, Item>, kids: set<Item>, p: Item)
    requires KidsOk(c, parentOf, kids) && p in c && c[p] != [] && Distinct(c[p])
    requires forall x :: x in c[p] ==> x in parentOf && parentOf[x] == p
    ensures KidsOk(Popped(c, p), parentOf, kids - {c[p][0]})
    ensures |kids - {c[p][0]}| == |kids| - 1
  {
    var x := c[p][0];
    assert Linked(c, parentOf, x);
    forall y ensures y in kids - {x} <==> Linked(Popped(c, p), parentOf, y) {
      assert c[p] == [x] + c[p][1..];
      assert x !in c[p][1..];
      assert y in c[p] <==> y == x || y in c[p][1..];
    }
  }

  lemma PopChains(s: State, p: Item)
    requires ChainsOk(s) && p in s.chains
    ensures s.chains[p] != [] && ChainsOk(WithoutHead(s, p))
  {
    hide Shape, KidsOk;
    ChainFacts(s, p);
    PopShape(s.chains, s.next, s.parentOf, s.heads, p);
    PopKids(s.chains, s.parentOf, s.kids, p);
    assert (s.chains - {p}).Keys == s.chains.Keys - {p};
    assert Popped(s.chains, p).Keys == if |s.chains[p]| == 1 then s.chains.Keys - {p} else s.chains.Keys;
  }

  lemma PopRefs(s: State, p: Item)
    requires RefsOk(s, {}) && p in s.chains && s.chains[p] != [] && s.chains[p][0] in s.kids
    ensures RefsOk(WithoutHead(s, p), {})
  {
    hide Popped;
  }

  lemma PopSlots(s: State, p: Item)
    requires SlotsOk(s, {}) && p in s.chains && s.chains[p] != [] && s.chains[p][0] in s.parentOf
    ensures SlotsOk(WithoutHead(s, p), {})
  {
    var s', x := WithoutHead(s, p), s.chains[p][0];
    assert s'.chains.Keys <= s.chains.Keys;
    forall y ensures y != x ==> Held(s', y) == Held(s, y) && Placed(s', y) == Placed(s, y) {
    }
    assert Held(s', x);
  }

  lemma PopValid(s: State, p: Item)
    requires Valid(s) && p in s.chains
    ensures s.chains[p] != [] && Valid(WithoutHead(s, p))
  {
    ChainFacts(s, p);
    assert s.chains[p][0] in s.chains[p];
    PopChains(s, p);
    PopRefs(s, p);
    PopSlots(s, p);
  }

  // ---------- replacing a child ----------

  /** `x` takes the place of the child at position `i`; a reference to the old child goes to the caller. */
  ghost function WithReplaced(s: State, p: Item, i: nat, x: Item): State
    requires p in s.chains && i < |s.chains[p]|
  {
    var y := s.chains[p][i];
    s.(chains := Substituted(s.chains, p, i, x), kids := s.kids - {y} + {x},
       next := Rehooked(s.next, s.chains[p], i, x),
       heads := if i == 0 then s.heads[p := x] else s.heads,
       handles := s.handles[y := 1][x := 0],
       inMM := s.inMM - {y} + {x})
  }

  ghost predicate CanReplace(s: State, p: Item, i: nat, x: Item) {
    && p in s.chains && i < |s.chains[p]|
    && x in s.parentOf && s.parentOf[x] == p && x !in s.kids && x in s.handles && s.handles[x] == 1
  }

  lemma ReplaceKids(c: ChainMap, parentOf: map<Item, Item>, kids: set<Item>, p: Item, i: nat, x: Item)
    requires KidsOk(c, parentOf, kids) && p in c && i < |c[p]| && Distinct(c[p]) && x !in kids
    requires x in parentOf && parentOf[x] == p && c[p][i] in parentOf && parentOf[c[p][i]] == p
    ensures KidsOk(Substituted(c, p, i, x), parentOf, kids - {c[p][i]} + {x})
    ensures |kids - {c[p][i]} + {x}| == |kids|
  {
    assert Linked(c, parentOf, c[p][i]);
    forall z ensures z in kids - {c[p][i]} + {x} <==> Linked(Substituted(c, p, i, x), parentOf, z) {
      SubstitutedMembers(c[p], i, x, z);
    }
  }

  lemma ReplaceChains(s: State, p: Item, i: nat, x: Item)
    requires Valid(s) && CanReplace(s, p, i, x)
    ensures ChainsOk(WithReplaced(s, p, i, x))
  {
    SubstituteShape(s.chains, s.next, s.parentOf, s.heads, p, i, x);
    assert s.chains[p][i] in s.chains[p];
    ReplaceKids(s.chains, s.parentOf, s.kids, p, i, x);
    assert Substituted(s.chains, p, i, x).Keys == s.chains.Keys;
    hide Shape, KidsOk, RefsOk, SlotsOk, Substituted, Rehooked;
  }

  lemma ReplaceRefs(s: State, p: Item, i: nat, x: Item)
    requires RefsOk(s, {}) && CanReplace(s, p, i, x) && s.chains[p][i] in s.kids && s.chains[p][i] in s.live
    ensures RefsOk(WithReplaced(s, p, i, x), {})
  {
    hide Substituted, Rehooked;
  }

  lemma ReplaceSlots(s: State, p: Item, i: nat, x: Item)
    requires RefsOk(s, {}) && SlotsOk(s, {}) && CanReplace(s, p, i, x) && s.chains[p][i] in s.kids
    requires s.chains[p][i] in s.live
    requires s.chains[p][i] in s.inMM && s.chains[p][i] in s.parentOf
    ensures SlotsOk(WithReplaced(s, p, i, x), {})
  {
    var s', y := WithReplaced(s, p, i, x), s.chains[p][i];
    assert s'.chains.Keys == s.chains.Keys;
    hide RefsOk, Substituted, Rehooked;
    assert Held(s', y) && Placed(s', x);
    forall z | z in s.live && z != x && z != y
      ensures (Held(s', z) <==> Held(s, z)) && (Placed(s', z) <==> Placed(s, z))
    {
    }
  }

  lemma ReplaceValid(s: State, p: Item, i: nat, x: Item)
    requires Valid(s) && CanReplace(s, p, i, x)
    ensures Valid(WithReplaced(s, p, i, x))
  {
    var y := s.chains[p][i];
    assert y in s.chains[p] && y in s.parentOf.Keys && s.parentOf[y] == p && Linked(s.chains, s.parentOf, y);
    assert y in s.kids && y in s.live && y in s.inMM;
    ReplaceChains(s, p, i, x);
    ReplaceRefs(s, p, i, x);
    ReplaceSlots(s, p, i, x);
  }

  // ---------- handing a chain to another parent ----------

  ghost function WithTransferred(s: State, p: Item, q: Item): State
    requires p in s.chains && p in s.heads
  {
    s.(chains := Transferred(s.chains, p, q), parentOf := Rekeyed(s.parentOf, s.chains[p], q),
       heads := (s.heads - {p})[q := s.heads[p]],
       hasChained := s.hasChained + {q} - {p})
  }

  lemma TransferKids(c: ChainMap, parentOf: map<Item, Item>, kids: set<Item>, p: Item, q: Item)
    requires KidsOk(c, parentOf, kids) && p in c && q !in c
    requires forall x :: x in c[p] ==> x in parentOf && parentOf[x] == p
    ensures KidsOk(Transferred(c, p, q), Rekeyed(parentOf, c[p], q), kids)
  {
  }

  lemma TransferredKeys(c: ChainMap, p: Item, q: Item)
    requires p in c && q !in c
    ensures Transferred(c, p, q).Keys == c.Keys - {p} + {q} == c.Keys + {q} - {p} && |Transferred(c, p, q)| == |c|
  {
    var c' := Transferred(c, p, q);
    assert c'.Keys == c.Keys - {p} + {q};
    assert |c'| == |c'.Keys| && |c| == |c.Keys|;
  }

  lemma TransferChains(s: State, p: Item, q: Item)
    requires ChainsOk(s) && p in s.chains && q !in s.chains
    ensures p in s.heads && ChainsOk(WithTransferred(s, p, q))
  {
    hide Shape, KidsOk, Rekeyed;
    ChainFacts(s, p);
    HeadsKnown(s, p);
    TransferShape(s.chains, s.next, s.parentOf, s.heads, p, q);
    TransferKids(s.chains, s.parentOf, s.kids, p, q);
    TransferredKeys(s.chains, p, q);
    hide Transferred;
  }

  lemma TransferSlots(s: State, p: Item, q: Item)
    requires SlotsOk(s, {}) && p in s.chains && p in s.heads && q in s.live && q !in s.parentOf && q !in s.recycled
    ensures SlotsOk(WithTransferred(s, p, q), {})
  {
    var s' := WithTransferred(s, p, q);
    assert s'.parentOf.Keys == s.parentOf.Keys;
    assert s'.chains.Keys == s.chains.Keys - {p} + {q};
    hide Rekeyed, Transferred;
    forall x ensures Held(s', x) == Held(s, x) && Placed(s', x) == Placed(s, x) {
    }
  }

  lemma TransferValid(s: State, p: Item, q: Item)
    requires Valid(s) && p in s.chains && q !in s.chains && q in s.live && q !in s.parentOf && q !in s.recycled
    ensures p in s.heads && Valid(WithTransferred(s, p, q))
  {
    hide ChainsOk, SlotsOk, RefsOk, WithTransferred;
    TransferChains(s, p, q);
    TransferSlots(s, p, q);
    TransferRefs(s, p, q);
  }

  lemma TransferRefs(s: State, p: Item, q: Item)
    requires RefsOk(s, {}) && p in s.chains && p in s.heads
    ensures RefsOk(WithTransferred(s, p, q), {})
  {
    assert Rekeyed(s.parentOf, s.chains[p], q).Keys == s.parentOf.Keys;
    hide Transferred;
  }

  // ---------- giving slots back ----------

  /** An item and the children chained to it. */
  ghost function Family(s: State, x: Item): set<Item> {
    Members(ChainOf(s.chains, x)) + {x}
  }

  /** No reference, and linked nowhere. */
  ghost predicate Drained(s: State, x: Item) {
    x in s.live && x in s.refs && s.refs[x] == 0 && !Placed(s, x) && x !in s.exclusive
  }

  function Zeroed(refs: map<Item, nat>, zero: set<Item>): map<Item, nat> {
    map y | y in refs :: if y in zero then 0 else refs[y]
  }

  /** The slot to reuse, if it is the item's own or a child's. */
  ghost function Kept(s: State, x: Item, toRecycle: Option<Item>): set<Item> {
    if toRecycle.Some? && toRecycle.value in Family(s, x) then {toRecycle.value} else {}
  }

  /** A drained item and its children are freed, except the one to recycle. */
  ghost function WithReleased(s: State, x: Item, toRecycle: Option<Item>): State {
    var chain, family, kept := Members(ChainOf(s.chains, x)), Family(s, x), Kept(s, x, toRecycle);
    s.(live := s.live - family + kept, recycled := s.recycled + kept,
       chains := s.chains - {x}, kids := s.kids - chain,
       next := s.next - chain, parentOf := s.parentOf - family,
       heads := s.heads - {x}, hasChained := s.hasChained - {x},
       numParents := if x in s.chains then s.numParents - 1 else s.numParents,
       numChildren := s.numChildren - |ChainOf(s.chains, x)|,
       refs := Zeroed(s.refs, chain),
       inMM := s.inMM - chain)
  }

  lemma ForgetShape(c: ChainMap, next: map<Item, Item>, parentOf: map<Item, Item>, heads: map<Item, Item>,
      kids: set<Item>, x: Item)
    requires Shape(c, next, parentOf, heads) && KidsOk(c, parentOf, kids) && x !in c && x !in kids
    ensures Shape(c, next, parentOf - {x}, heads) && KidsOk(c, parentOf - {x}, kids)
  {
    hide Spelled, Distinct;
    forall p, y | p in c && y in c[p] ensures y != x {
      assert Linked(c, parentOf, y);
    }
  }

  lemma MinusNothing<V>(m: map<Item, V>, xs: set<Item>)
    requires m.Keys !! xs
    ensures m - xs == m
  {
  }

  lemma HeadsKnown(s: State, x: Item)
    requires ChainsOk(s)
    ensures x in s.heads <==> x in s.chains
    ensures x in s.hasChained <==> x in s.chains
  {
  }

  lemma ReleasedChains(s: State, x: Item, toRecycle: Option<Item>)
    requires ChainsOk(s) && x !in s.chains
    ensures var s' := WithReleased(s, x, toRecycle);
            && s'.chains == s.chains && s'.kids == s.kids && s'.next == s.next && s'.heads == s.heads
            && s'.hasChained == s.hasChained && s'.numParents == s.numParents && s'.numChildren == s.numChildren
            && s'.parentOf == s.parentOf - {x}
  {
    hide ChainsOk, Kept, Zeroed, Members, ChainOf, Family;
    HeadsKnown(s, x);
    NoChildren(s, x);
    MinusNothing(s.chains, {x});
    MinusNothing(s.heads, {x});
    MinusNothing(s.next, {});
    assert s.hasChained - {x} == s.hasChained && s.kids - {} == s.kids;
  }

  lemma ReleaseChild(s: State, x: Item, toRecycle: Option<Item>)
    requires ChainsOk(s) && x !in s.chains && x !in s.kids
    ensures ChainsOk(WithReleased(s, x, toRecycle))
  {
    hide Shape, KidsOk, WithReleased;
    ForgetShape(s.chains, s.next, s.parentOf, s.heads, s.kids, x);
    ReleasedChains(s, x, toRecycle);
  }

  lemma NoChildren(s: State, x: Item)
    requires x !in s.chains
    ensures ChainOf(s.chains, x) == [] && Members(ChainOf(s.chains, x)) == {} && Family(s, x) == {x}
  {
    assert Members([]) == {};
  }

  lemma DiscardKids(c: ChainMap, parentOf: map<Item, Item>, kids: set<Item>, p: Item)
    requires KidsOk(c, parentOf, kids) && p in c && Distinct(c[p])
    requires forall x :: x in c[p] ==> x in parentOf && parentOf[x] == p
    ensures KidsOk(c - {p}, parentOf - Members(c[p]), kids - Members(c[p]))
    ensures |kids - Members(c[p])| == |kids| - |c[p]|
  {
    MembersSize(c[p]);
    forall x | x in Members(c[p]) ensures x in kids {
      assert Linked(c, parentOf, x);
    }
    RemovedSize(kids, Members(c[p]));
  }

  lemma ChainFacts(s: State, p: Item)
    requires ChainsOk(s) && p in s.chains
    ensures s.chains[p] != [] && Distinct(s.chains[p])
    ensures forall x :: x in s.chains[p] ==> x in s.parentOf && s.parentOf[x] == p && x in s.kids
  {
    forall x | x in s.chains[p] ensures x in s.parentOf && s.parentOf[x] == p && x in s.kids {
      assert Linked(s.chains, s.parentOf, x);
    }
  }

  lemma ReleaseParent(s: State, x: Item, toRecycle: Option<Item>)
    requires ChainsOk(s) && x in s.chains && x !in s.parentOf
    ensures ChainsOk(WithReleased(s, x, toRecycle))
  {
    hide Shape, KidsOk, Kept, Zeroed, Members;
    ChainFacts(s, x);
    DiscardShape(s.chains, s.next, s.parentOf, s.heads, x);
    DiscardKids(s.chains, s.parentOf, s.kids, x);
    MinusSame(s.parentOf, Members(s.chains[x]), x);
    assert (s.chains - {x}).Keys == s.chains.Keys - {x};
  }

  lemma MinusSame<V>(m: map<Item, V>, xs: set<Item>, x: Item)
    requires x !in m
    ensures m - (xs + {x}) == m - xs
  {
  }

  lemma FamilyKnown(s: State, x: Item, y: Item, loose: set<Item>)
    requires ValidBut(s, loose) && loose <= Family(s, x) && Drained(s, x) && y in Family(s, x)
    ensures y in s.live && y in s.handles && s.handles[y] == 0 && y !in s.accessible
    ensures if y == x then y !in s.inMM && s.refs[y] == 0 && y !in s.kids
            else y in s.kids && y in s.parentOf && y !in s.chains
    ensures y in s.kids <==> y in ChainOf(s.chains, x)
  {
    if y in ChainOf(s.chains, x) {
      assert Linked(s.chains, s.parentOf, y);
    }
  }

  /** What it takes to drop a family of slots, keeping at most one of them for reuse. */
  ghost predicate Drops(s: State, s': State, x: Item, family: set<Item>, kept: set<Item>) {
    && x in family && kept <= family
    && s'.live == s.live - family + kept && s'.recycled == s.recycled + kept
    && s'.handles == s.handles && s'.accessible == s.accessible && s'.exclusive == s.exclusive
    && s'.inMM == s.inMM - (family - {x})
    && s'.kids == s.kids - (family - {x}) && s'.parentOf == s.parentOf - family
    && s'.chains.Keys == s.chains.Keys - {x}
    && s'.refs == Zeroed(s.refs, family - {x})
  }

  ghost predicate Unheld(s: State, x: Item, family: set<Item>) {
    forall y :: y in family ==>
      && y in s.live && !Held(s, y) && y !in s.accessible
      && (y in s.kids <==> y != x) && (y != x ==> y !in s.chains && y in s.parentOf)
  }

  lemma DropSlots(s: State, s': State, x: Item, family: set<Item>, kept: set<Item>, loose: set<Item>)
    requires SlotsOk(s, loose) && loose <= family && Drained(s, x) && x !in s.recycled
    requires Drops(s, s', x, family, kept) && Unheld(s, x, family)
    ensures SlotsOk(s', {})
  {
    forall y ensures Held(s', y) == Held(s, y) {
    }
    forall y | y in s'.accessible ensures y in s'.live {
      assert y in s.live && y !in family;
    }
    forall y | y in s'.chains.Keys ensures y in s'.live {
      assert y in s.live && y !in family;
    }
    forall y | y in s'.recycled ensures y in s'.live {
      assert y in s.live;
    }
  }

  lemma DropRefs(s: State, s': State, x: Item, family: set<Item>, kept: set<Item>, loose: set<Item>)
    requires RefsOk(s, loose) && loose <= family && Drained(s, x)
    requires Drops(s, s', x, family, kept) && Unheld(s, x, family)
    ensures RefsOk(s', {})
  {
    forall y | y in s'.live ensures y in s'.refs && y in s'.handles {
      assert y in s.live;
    }
    forall y | y in s'.live
      ensures if y in s'.kids then s'.refs[y] == 1 && s'.handles[y] == 0 else s'.refs[y] == s'.handles[y]
    {
      assert y in s.live;
    }
  }

  lemma FamilyUnheld(s: State, x: Item, loose: set<Item>)
    requires ValidBut(s, loose) && loose <= Family(s, x) && Drained(s, x)
    ensures Unheld(s, x, Family(s, x)) && Members(ChainOf(s.chains, x)) == Family(s, x) - {x}
  {
    forall y | y in Family(s, x)
      ensures && y in s.live && !Held(s, y) && y !in s.accessible
              && (y in s.kids <==> y != x) && (y != x ==> y !in s.chains && y in s.parentOf)
    {
      FamilyKnown(s, x, y, loose);
    }
    FamilyKnown(s, x, x, loose);
  }

  lemma ReleaseDrops(s: State, x: Item, toRecycle: Option<Item>, loose: set<Item>)
    requires ValidBut(s, loose) && loose <= Family(s, x) && Drained(s, x)
    ensures Unheld(s, x, Family(s, x))
    ensures Drops(s, WithReleased(s, x, toRecycle), x, Family(s, x), Kept(s, x, toRecycle))
  {
    hide ValidBut, Drained, Unheld, ChainOf, Members, Zeroed;
    FamilyUnheld(s, x, loose);
    assert (s.chains - {x}).Keys == s.chains.Keys - {x};
  }

  lemma ReleaseValid(s: State, x: Item, toRecycle: Option<Item>, loose: set<Item>)
    requires ValidBut(s, loose) && loose <= Family(s, x) && Drained(s, x) && x !in s.recycled
    ensures Valid(WithReleased(s, x, toRecycle))
  {
    hide ChainsOk, RefsOk, SlotsOk, Unheld, Drops, Drained, Family, Kept, WithReleased;
    var s' := WithReleased(s, x, toRecycle);
    ReleaseDrops(s, x, toRecycle, loose);
    DropRefs(s, s', x, Family(s, x), Kept(s, x, toRecycle), loose);
    DropSlots(s, s', x, Family(s, x), Kept(s, x, toRecycle), loose);
    ReleaseChains(s, x, toRecycle, loose);
  }

  lemma ReleaseChains(s: State, x: Item, toRecycle: Option<Item>, loose: set<Item>)
    requires ValidBut(s, loose) && loose <= Family(s, x) && Drained(s, x)
    ensures ChainsOk(WithReleased(s, x, toRecycle))
  {
    if x in s.chains {
      ReleaseParent(s, x, toRecycle);
    } else {
      assert x !in s.kids;
      ReleaseChild(s, x, toRecycle);
    }
  }
}
