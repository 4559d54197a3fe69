/** The allocator's item operations as it runs them: flags, counts, hooks and the chained item
    table updated in place, chains walked through their next hooks. */
module ItemStore {
  import opened Basics
  import opened Chains
  import opened Slots
  import opened SlotEffects

  ghost predicate Same<T>(a: T, b: T) {
    a == b
  }

  /** The bits kept beside an item's reference count. */
  datatype Flags = Flags(inMM: set<Item>, accessible: set<Item>, exclusive: set<Item>, hasChained: set<Item>)

  datatype Stats = Stats(numParents: int, numChildren: int)

  class Items {
    var live: set<Item>
    var parentOf: map<Item, Item>
    var next: map<Item, Item>
    var refs: map<Item, nat>
    var flags: Flags
    var heads: map<Item, Item>
    var stats: Stats

    /** The fields together with the chains, handles and recycled slots they stand for. */
    ghost var s: State

    ghost predicate Coupled() reads this {
      && Same(s.live, live) && Same(s.parentOf, parentOf) && Same(s.next, next) && Same(s.refs, refs)
      && Same(Flags(s.inMM, s.accessible, s.exclusive, s.hasChained), flags)
      && Same(s.heads, heads) && Same(Stats(s.numParents, s.numChildren), stats)
    }

    ghost predicate Good() reads this {
      Coupled() && Valid(s)
    }

    constructor ()
      ensures Good() && s == EMPTY
    {
      live, parentOf, next, refs, heads := {}, map[], map[], map[], map[];
      flags, stats, s := Flags({}, {}, {}, {}), Stats(0, 0), EMPTY;
    }

    method AddChainedItem(parent: Option<Item>, child: Option<Item>) returns (r: Result<()>)
      requires Good()
      requires parent.Some? && child.Some? && child.value in parentOf ==> CanAdd(s, parent.value, child.value)
      modifies this
      ensures Good()
      ensures r.Ok? <==> parent.Some? && child.Some? && child.value in old(parentOf)
      ensures s == if r.Ok? then WithChild(old(s), parent.value, child.value) else old(s)
      ensures r.Ok? ==> Effect(old(s), AddChild(parent.value, child.value), s)
    {
      hide Valid, CanAdd, Pushed, Effect;
      r := InvalidArgument;
      if parent.Some? && child.Some? && child.value in parentOf {
        var p, x := parent.value, child.value;
        AddValid(s, p, x);
        AddEffect(s, p, x);
        next := if p in heads then next[x := heads[p]] else next;
        heads := heads[p := x];
        stats := Stats(if p in flags.hasChained then stats.numParents else stats.numParents + 1, stats.numChildren + 1);
        // one reference more for the parent; the caller's handle ends with this call
        flags := flags.(hasChained := flags.hasChained + {p}, inMM := flags.inMM + {x});
        s := WithChild(s, p, x);
        r := Ok(());
      }
    }

    method PopChainedItem(parent: Option<Item>) returns (r: Result<Item>)
      requires Good()
      modifies this
      ensures Good()
      ensures r.Ok? <==> parent.Some? && parent.value in old(s).chains
      ensures r.Ok? ==> old(s).chains[parent.value] != [] && r.value == old(s).chains[parent.value][0] &&
                        s == WithoutHead(old(s), parent.value)
      ensures r.Ok? ==> Effect(old(s), PopChild(parent.value), s)
      ensures !r.Ok? ==> s == old(s)
    {
      hide Valid, Popped, Effect;
      r := InvalidArgument;
      if parent.Some? {
        var p := parent.value;
        HeadKnown(s, p);
        if p in flags.hasChained {
          PopValid(s, p);
          PopEffect(s, p);
          var head := heads[p];
          var last := head !in next;
          heads := if last then heads - {p} else heads[p := next[head]];
          next := next - {head};
          flags := flags.(inMM := flags.inMM - {head},
                          hasChained := if last then flags.hasChained - {p} else flags.hasChained);
          stats := Stats(if last then stats.numParents - 1 else stats.numParents, stats.numChildren - 1);
          // the handle taken on the head replaces the parent's reference
          s := WithoutHead(s, p);
          r := Ok(head);
        }
      }
    }

    function NextOf(x: Item): Option<Item> reads this {
      if x in next then Some(next[x]) else None
    }

    /** Puts `x` in the place of `y` in the chain of `p`, walking the chain to find its predecessor. */
    method ReplaceInChain(p: Item, y: Item, x: Item, ghost i: nat)
      requires Good() && p in s.chains && i < |s.chains[p]| && s.chains[p][i] == y
      modifies `next, `heads
      ensures next == Rehooked(old(next), s.chains[p], i, x)
      ensures heads == if i == 0 then old(heads)[p := x] else old(heads)
    {
      hide Valid;
      ghost var t := s.chains[p];
      HeadKnown(s, p);
      ChainSpelled(s, p);
      var head := heads[p];
      var after := NextOf(y);
      if head == y {
        heads := heads[p := x];
      } else {
        var prev, curr := head, NextOf(head);
        ghost var j := 0;
        while curr.Some? && curr.value != y
          invariant 0 <= j < i && prev == t[j] && curr == Some(t[j + 1])
          decreases |t| - j
        {
          prev, j := curr.value, j + 1;
          curr := NextOf(prev);
        }
        next := next[prev := x];
      }
      if after.Some? {
        next := next[x := after.value];
      }
      next := next - {y};
    }

    method ReplaceChainedItem(y: Item, newItem: Option<Item>, p: Item) returns (r: Result<Item>)
      requires Good()
      requires newItem.Some? && newItem.value in parentOf ==>
               newItem.value in s.handles && s.handles[newItem.value] == 1
      modifies this
      ensures Good()
      ensures r.Ok? <==>
              && newItem.Some? && y in old(parentOf) && newItem.value in old(parentOf)
              && old(parentOf)[y] == p && old(parentOf)[newItem.value] == p
              && newItem.value !in old(flags).inMM && y in old(flags).inMM
      ensures r.Ok? ==> r.value == y && Replaces(old(s), s, p, y, newItem.value)
      ensures !r.Ok? ==> s == old(s)
    {
      hide Valid, Rehooked, Substituted;
      r := InvalidArgument;
      if newItem.Some? {
        var x := newItem.value;
        if && y in parentOf && x in parentOf && parentOf[y] == parentOf[x] && parentOf[y] == p
           && x !in flags.inMM && y in flags.inMM
        {
          ghost var i := ChildIndex(s, y);
          NotLinked(s, x);
          ReplaceValid(s, p, i, x);
          ReplaceInChain(p, y, x, i);
          flags := flags.(inMM := flags.inMM - {y} + {x});
          s := WithReplaced(s, p, i, x);
          r := Ok(y);
        }
      }
    }

    /** Changes the key of every child from `head` on. */
    method ChangeKeys(head: Item, q: Item, ghost t: seq<Item>)
      requires t != [] && head == t[0] && Spelled(next, t) && (forall j :: 0 <= j < |t| ==> t[j] in parentOf)
      modifies `parentOf
      ensures parentOf == Rekeyed(old(parentOf), t, q)
    {
      ghost var before, j := parentOf, 0;
      var curr := Some(head);
      RekeyedNone(parentOf, t, q);
      while curr.Some?
        invariant 0 <= j <= |t| && curr == if j < |t| then Some(t[j]) else None
        invariant parentOf == Rekeyed(before, t[..j], q)
        decreases |t| - j
      {
        RekeyedOne(before, t, j, q);
        parentOf := parentOf[curr.value := q];
        curr, j := NextOf(curr.value), j + 1;
      }
      assert t[..j] == t;
    }

    method TransferChain(p: Item, q: Item) returns (r: Result<()>)
      requires Good() && p in s.chains && q in live && Held(s, q) && q !in parentOf
      modifies this
      ensures Good()
      ensures r.Ok? <==> q !in old(s).chains
      ensures p in old(s).heads && s == if r.Ok? then WithTransferred(old(s), p, q) else old(s)
    {
      hide Valid, Transferred, Rekeyed;
      ghost var t := s.chains[p];
      HeadKnown(s, p);
      HeadKnown(s, q);
      ChainSpelled(s, p);
      HeldStays(s, q);
      r := InvalidArgument;
      if q !in flags.hasChained {
        TransferValid(s, p, q);
        var head := heads[p];
        heads := heads - {p};
        ChangeKeys(head, q, t);
        flags := flags.(hasChained := flags.hasChained + {q} - {p});
        heads := heads[q := head];
        s := WithTransferred(s, p, q);
        r := Ok(());
      }
    }

    predicate IsDrained(x: Item) reads this {
      x in live && x in refs && refs[x] == 0 && x !in flags.inMM && x !in flags.accessible && x !in flags.exclusive
    }

    /** Unlinks and frees the children from `head` on, except the one to recycle. */
    method FreeChain(head: Item, toRecycle: Option<Item>, ghost t: seq<Item>) returns (found: bool)
      requires t != [] && head == t[0] && Spelled(next, t) && Distinct(t)
      requires forall j :: 0 <= j < |t| ==> t[j] in live && t[j] in refs && refs[t[j]] == 1
      modifies `live, `parentOf, `next, `refs, `flags, `stats
      ensures found <==> toRecycle.Some? && toRecycle.value in t
      ensures live == old(live) - (Members(t) - Only(toRecycle))
      ensures parentOf == old(parentOf) - Members(t)
      ensures next == old(next) - Members(t) && refs == Zeroed(old(refs), Members(t))
      ensures flags == old(flags).(inMM := old(flags).inMM - Members(t))
      ensures stats == old(stats).(numChildren := old(stats).numChildren - |t|)
    {
      hide Members, Zeroed, Only, Distinct;
      ghost var j := 0;
      var curr := Some(head);
      found := false;
      FreeNone(live, next, parentOf, refs, flags.inMM, t, Only(toRecycle));
      while curr.Some?
        invariant 0 <= j <= |t| && curr == if j < |t| then Some(t[j]) else None
        invariant found <==> toRecycle.Some? && toRecycle.value in t[..j]
        invariant live == old(live) - (Members(t[..j]) - Only(toRecycle))
        invariant parentOf == old(parentOf) - Members(t[..j])
        invariant next == old(next) - Members(t[..j]) && refs == Zeroed(old(refs), Members(t[..j]))
        invariant flags == old(flags).(inMM := old(flags).inMM - Members(t[..j]))
        invariant stats == old(stats).(numChildren := old(stats).numChildren - j)
        decreases |t| - j
      {
        FreeOne(old(live), old(next), old(parentOf), old(refs), old(flags).inMM, t, j, toRecycle);
        var x := curr.value;
        var after := NextOf(x);
        flags := flags.(inMM := flags.inMM - {x});
        refs := refs[x := refs[x] - 1];
        next, parentOf := next - {x}, parentOf - {x};
        if toRecycle == Some(x) {
          found := true;
        } else {
          live := live - {x};
        }
        stats := stats.(numChildren := stats.numChildren - 1);
        curr, j := after, j + 1;
      }
      assert t[..j] == t;
    }

    method ReleaseBackToAllocator(x: Item, toRecycle: Option<Item>, ghost loose: set<Item>)
      returns (r: Result<ReleaseRes>)
      requires Coupled() && ValidBut(s, loose) && loose <= Family(s, x) && x !in s.recycled
      modifies this
      ensures Coupled()
      ensures r.Ok? <==> Drained(old(s), x) && !(x in old(parentOf) && toRecycle.Some?)
      ensures r.Ok? ==> Valid(s) && s == WithReleased(old(s), x, toRecycle)
      ensures r.Ok? ==> r.value == Outcome(old(s), x, toRecycle)
      ensures !r.Ok? ==> s == old(s)
    {
      hide ValidBut, Valid, Family, WithReleased, Outcome;
      r := InvalidArgument;
      if IsDrained(x) && !(x in parentOf && toRecycle.Some?) {
        var res := ReleaseDrained(x, toRecycle, loose);
        r := Ok(res);
      }
    }

    method ReleaseDrained(x: Item, toRecycle: Option<Item>, ghost loose: set<Item>) returns (res: ReleaseRes)
      requires Coupled() && ValidBut(s, loose) && loose <= Family(s, x) && x !in s.recycled && Drained(s, x)
      modifies this
      ensures Coupled() && Valid(s) && s == WithReleased(old(s), x, toRecycle)
      ensures res == Outcome(old(s), x, toRecycle)
    {
      hide ValidBut, Valid, Family, Members, Zeroed, Only, Kept, Outcome, WithReleased;
      ReleaseValid(s, x, toRecycle, loose);
      HeadKnownBut(s, x, loose);
      res := if toRecycle.Some? then NotRecycled else Released;
      if x in flags.hasChained {
        ReleaseWithChain(s, x, toRecycle, loose);
        ghost var t := s.chains[x];
        var head := heads[x];
        heads := heads - {x};
        var found := FreeChain(head, toRecycle, t);
        res := if found then Recycled else res;
        flags := flags.(hasChained := flags.hasChained - {x});
        stats := stats.(numParents := stats.numParents - 1);
      } else {
        ReleaseAlone(s, x, toRecycle, loose);
        parentOf := parentOf - {x};
      }
      if toRecycle == Some(x) {
        res := Recycled;
      } else {
        live := live - {x};
      }
      s := WithReleased(s, x, toRecycle);
    }

    /** One walk over the eviction queue: marks and unlinks the first candidate it can. */
    method GetNextCandidate(order: seq<Item>, limit: nat, tried: nat) returns (found: Option<(Item, Item)>, tries: nat)
      requires Good() && (limit == 0 || limit > tried) && (forall x :: x in order ==> x in flags.inMM)
      modifies this
      ensures Coupled() && tried < tries && (limit > 0 ==> tries <= limit)
      ensures found.None? ==> s == old(s)
      ensures found.None? <==> AllBlocked(old(s), order, Reach(limit, tried, order))
      ensures found.Some? ==>
                && Chosen(old(s), order, Reach(limit, tried, order), found.value.1)
                && found.value.0 == Candidate(old(s), found.value.1) && s == Taken(old(s), found.value.1)
    {
      hide Valid, AllBlocked;
      Searched(s, order, Reach(limit, tried, order));
      found, tries := None, tried;
      if order == [] {
        tries := tries + 1;
        return;
      }
      var i := 0;
      while (limit == 0 || limit > tries) && i < |order|
        invariant 0 <= i <= |order| && tries == tried + i && (limit > 0 ==> tries <= limit)
        invariant forall j :: 0 <= j < i ==> !Markable(s, Candidate(s, order[j]))
        invariant Coupled() && s == old(s) && live == old(live) && flags == old(flags)
      {
        tries := tries + 1;
        var x := order[i];
        var c := if x in parentOf then parentOf[x] else x;
        if c in flags.inMM && c in refs && refs[c] == 0 && c !in flags.exclusive {
          // the item leaves the queue at the iterator, its candidate both containers
          flags := flags.(inMM := flags.inMM - {x} - {c}, accessible := flags.accessible - {c});
          s := Taken(s, x);
          found := Some((c, x));
          return;
        }
        i := i + 1;
      }
    }

    /** Evicts until a slot comes free for reuse, within `limit` tries, or without a limit if it is 0;
        then the search does not end before there is something to evict. */
    method FindEviction(order: seq<Item>, limit: nat) returns (slot: Option<Item>, tries: nat)
      requires Good() && (forall x :: x in order ==> x in flags.inMM)
      requires limit > 0 || exists j :: 0 <= j < |order| && !OwnerBlocked(s, order[j])
      modifies this
      ensures Good() && (limit > 0 ==> tries <= limit)
      ensures slot.None? ==> limit > 0 && s == old(s)
      ensures limit > 0 ==> (slot.None? <==> AllBlocked(old(s), order, limit))
      ensures slot.Some? ==>
              Chosen(old(s), order, Reach(limit, 0, order), slot.value) && s == Evicted(old(s), slot.value)
      ensures slot.Some? ==> FirstFree(old(s), order, slot.value) && Effect(old(s), Evict(slot.value), s)
      ensures slot.Some? ==> slot.value in s.recycled
    {
      hide Valid, ValidBut, Markable, Candidate, Evicted, Taken, AllBlocked, Effect, FirstFree;
      Searched(s, order, Reach(limit, 0, order));
      SomeFree(s, order);
      slot, tries := None, 0;
      while limit == 0 || limit > tries
        invariant Good() && s == old(s) && flags == old(flags) && (if limit > 0 then tries <= limit else tries == 0)
        invariant tries > 0 ==> AllBlocked(s, order, limit)
        decreases limit - tries
      {
        var found;
        found, tries := GetNextCandidate(order, limit, tries);
        if found.Some? {
          var (candidate, toRecycle) := found.value;
          ChosenMarkable(old(s), order, Reach(limit, 0, order), toRecycle);
          ChosenFree(old(s), order, Reach(limit, 0, order), toRecycle);
          EvictEffect(old(s), toRecycle);
          TakenReady(old(s), toRecycle);
          var r := ReleaseBackToAllocator(candidate, Some(toRecycle), {toRecycle, candidate});
          slot := Some(toRecycle);
          return;
        }
      }
    }
  }

  /** How many queued items a search with so many tries behind it can look at. */
  function Reach(limit: nat, tried: nat, order: seq<Item>): int {
    if limit == 0 then |order| else limit - tried
  }

  /** The item an eviction walk of at most `limit` steps takes: the first whose parent, or itself,
      can be marked. */
  ghost predicate Chosen(s: State, order: seq<Item>, limit: int, x: Item) {
    exists i :: 0 <= i < |order| && i < limit && order[i] == x && Markable(s, Candidate(s, x)) &&
                forall j :: 0 <= j < i ==> !Markable(s, Candidate(s, order[j]))
  }

  /** The owners of the first `limit` queued items are all held, marked or off their queue. */
  ghost predicate AllBlocked(s: State, order: seq<Item>, limit: int) {
    forall j :: 0 <= j < |order| && j < limit ==> OwnerBlocked(s, order[j])
  }

  /** The first queued item whose owner nothing blocks. */
  ghost predicate FirstFree(s: State, order: seq<Item>, x: Item) {
    exists i :: 0 <= i < |order| && order[i] == x && !OwnerBlocked(s, x) && AllBlocked(s, order, i)
  }

  lemma Searched(s: State, order: seq<Item>, limit: int)
    requires Valid(s) && (forall x :: x in order ==> x in s.inMM)
    ensures AllBlocked(s, order, limit) <==>
            forall j :: 0 <= j < |order| && j < limit ==> !Markable(s, Candidate(s, order[j]))
    ensures (exists x :: Chosen(s, order, limit, x)) ==> !AllBlocked(s, order, limit)
  {
    hide Valid, Markable, Candidate, OwnerBlocked;
    forall j | 0 <= j < |order| ensures Markable(s, Candidate(s, order[j])) <==> !OwnerBlocked(s, order[j]) {
      var x := order[j];
      assert x in order;
      EvictableExactly(s, x);
    }
  }

  lemma SomeFree(s: State, order: seq<Item>)
    ensures (exists j :: 0 <= j < |order| && !OwnerBlocked(s, order[j])) ==> !AllBlocked(s, order, |order|)
  {
  }

  lemma ChosenFree(s: State, order: seq<Item>, limit: int, x: Item)
    requires Valid(s) && (forall y :: y in order ==> y in s.inMM) && Chosen(s, order, limit, x)
    ensures FirstFree(s, order, x)
  {
    hide Valid, Markable, Candidate, OwnerBlocked;
    var i :| 0 <= i < |order| && i < limit && order[i] == x && Markable(s, Candidate(s, x)) &&
             forall j :: 0 <= j < i ==> !Markable(s, Candidate(s, order[j]));
    Searched(s, order, i);
    EvictableExactly(s, x);
  }

  lemma ChosenMarkable(s: State, order: seq<Item>, limit: int, x: Item)
    requires Chosen(s, order, limit, x)
    ensures x in order && Markable(s, Candidate(s, x))
    ensures forall more :: more >= limit ==> Chosen(s, order, more, x)
  {
  }

  /** The candidate unlinked, and the queued item off its queue. */
  ghost function Taken(s: State, x: Item): State {
    var c := Candidate(s, x);
    s.(inMM := s.inMM - {x} - {c}, accessible := s.accessible - {c})
  }

  lemma TakenChains(s: State, x: Item)
    requires ChainsOk(s)
    ensures ChainsOk(Taken(s, x))
  {
    hide Shape, KidsOk;
  }

  lemma TakenRefs(s: State, x: Item)
    requires RefsOk(s, {}) && Candidate(s, x) !in s.parentOf
    ensures RefsOk(Taken(s, x), {x, Candidate(s, x)})
  {
  }

  lemma TakenSlots(s: State, x: Item)
    requires SlotsOk(s, {}) && Candidate(s, x) !in s.exclusive && x !in s.exclusive
    ensures SlotsOk(Taken(s, x), {x, Candidate(s, x)})
  {
    var c, s1 := Candidate(s, x), Taken(s, x);
    forall y ensures Held(s1, y) == Held(s, y) && (y != x && y != c ==> Placed(s1, y) == Placed(s, y)) {
    }
  }

  lemma TakenSame(s: State, x: Item)
    requires x in Family(s, Candidate(s, x))
    ensures WithReleased(Taken(s, x), Candidate(s, x), Some(x)) == Evicted(s, x)
  {
    var c := Candidate(s, x);
    var chain := Members(ChainOf(s.chains, c));
    assert s.inMM - {x} - {c} - chain == s.inMM - {c} - chain;
  }

  lemma TakenReady(s: State, x: Item)
    requires Valid(s) && x in s.inMM && Markable(s, Candidate(s, x))
    ensures var c, s1 := Candidate(s, x), Taken(s, x);
            && ValidBut(s1, {x, c}) && {x, c} <= Family(s1, c) && Drained(s1, c) && c !in s1.recycled
            && c !in s1.parentOf
            && WithReleased(s1, c, Some(x)) == Evicted(s, x) && Outcome(s1, c, Some(x)) == Recycled
    ensures x in Evicted(s, x).recycled
  {
    hide ChainsOk;
    CandidateFacts(s, x);
    assert x !in s.exclusive;
    TakenChains(s, x);
    TakenRefs(s, x);
    TakenSlots(s, x);
    TakenSame(s, x);
    hide Members, Zeroed;
  }

  lemma HeadKnownBut(s: State, p: Item, loose: set<Item>)
    requires ValidBut(s, loose)
    ensures p in s.hasChained <==> p in s.chains
    ensures p in s.chains ==> p in s.heads && s.chains[p] != [] && s.heads[p] == s.chains[p][0]
    ensures p in s.chains ==> Spelled(s.next, s.chains[p]) && Distinct(s.chains[p])
    ensures p in s.chains ==>
              forall j :: 0 <= j < |s.chains[p]| ==>
                s.chains[p][j] in s.live && s.chains[p][j] in s.refs && s.refs[s.chains[p][j]] == 1
  {
    if p in s.chains {
      ChainFacts(s, p);
      assert forall j :: 0 <= j < |s.chains[p]| ==> s.chains[p][j] in s.chains[p] && s.chains[p][j] in s.parentOf.Keys;
    }
  }

  /** Recycling succeeds if and only if the slot asked for is the item's own or a child's. */
  ghost function Outcome(s: State, x: Item, toRecycle: Option<Item>): ReleaseRes {
    if toRecycle == None then Released else if toRecycle.value in Family(s, x) then Recycled else NotRecycled
  }

  /** What releasing changes, for an item without children. */
  lemma ReleaseAlone(s: State, x: Item, toRecycle: Option<Item>, loose: set<Item>)
    requires ValidBut(s, loose) && x in s.live && x !in s.chains
    ensures var s' := WithReleased(s, x, toRecycle);
            && Outcome(s, x, toRecycle) == (if toRecycle == None then Released
                                            else if toRecycle == Some(x) then Recycled else NotRecycled)
            && s'.live == (if toRecycle == Some(x) then s.live else s.live - {x})
            && s'.parentOf == s.parentOf - {x} && s'.next == s.next && s'.refs == s.refs && s'.inMM == s.inMM
            && s'.heads == s.heads && s'.hasChained == s.hasChained && s'.numChildren == s.numChildren
            && s'.numParents == s.numParents && s'.accessible == s.accessible && s'.exclusive == s.exclusive
  {
    hide ChainsOk, RefsOk, SlotsOk;
    HeadsKnown(s, x);
    assert Members(ChainOf(s.chains, x)) == {};
    assert Family(s, x) == {x};
    hide Members, Family, Zeroed;
    MinusNothing(s.next, {});
    MinusNothing(s.heads, {x});
    ZeroedNone(s.refs);
    assert s.inMM - {} == s.inMM && s.hasChained - {x} == s.hasChained;
  }

  lemma ZeroedNone(refs: map<Item, nat>)
    ensures Zeroed(refs, {}) == refs
  {
  }

  /** What releasing changes, for a parent. */
  lemma ReleaseWithChain(s: State, x: Item, toRecycle: Option<Item>, loose: set<Item>)
    requires ValidBut(s, loose) && x in s.chains
    ensures var s', t := WithReleased(s, x, toRecycle), s.chains[x];
            && Outcome(s, x, toRecycle) == (if toRecycle == None then Released
                                            else if toRecycle.value in t || toRecycle == Some(x) then Recycled
                                              else NotRecycled)
            && s'.live ==
                 (var rest := s.live - (Members(t) - Only(toRecycle)); if toRecycle == Some(x) then rest
                 else rest - {x})
            && s'.parentOf == s.parentOf - Members(t) && s'.next == s.next - Members(t)
            && s'.inMM == s.inMM - Members(t)
            && s'.refs == Zeroed(s.refs, Members(t)) && s'.heads == s.heads - {x} && s'.hasChained == s.hasChained - {x}
            && s'.numParents == s.numParents - 1 && s'.numChildren == s.numChildren - |t|
            && s'.accessible == s.accessible && s'.exclusive == s.exclusive
  {
    hide ChainsOk, RefsOk, Only, Zeroed;
    ReleaseLive(s, x, toRecycle, loose);
    MinusSame(s.parentOf, Members(s.chains[x]), x);
  }

  lemma ReleaseLive(s: State, x: Item, toRecycle: Option<Item>, loose: set<Item>)
    requires ValidBut(s, loose) && x in s.chains
    ensures var t := s.chains[x];
            s.live - Family(s, x) + Kept(s, x, toRecycle) == var rest := s.live - (Members(t) - Only(toRecycle));
            if toRecycle == Some(x) then rest else rest - {x}
  {
    ChainFacts(s, x);
    hide ChainsOk;
    assert forall y :: y in Members(s.chains[x]) ==> y in s.parentOf.Keys && y in s.live && y != x;
  }

  function Only(x: Option<Item>): set<Item> {
    if x.Some? then {x.value} else {}
  }

  lemma FreeNone(live: set<Item>, next: map<Item, Item>, parentOf: map<Item, Item>, refs: map<Item, nat>,
      inMM: set<Item>, t: seq<Item>, kept: set<Item>)
    ensures live == live - (Members(t[..0]) - kept) && next == next - Members(t[..0])
    ensures parentOf == parentOf - Members(t[..0])
    ensures refs == Zeroed(refs, Members(t[..0])) && inMM == inMM - Members(t[..0])
  {
    assert Members(t[..0]) == {};
  }

  /** Freeing one child more. */
  lemma FreeOne(live: set<Item>, next: map<Item, Item>, parentOf: map<Item, Item>, refs: map<Item, nat>,
      inMM: set<Item>, t: seq<Item>, j: nat, toRecycle: Option<Item>)
    requires j < |t| && Distinct(t) && t[j] in refs && refs[t[j]] == 1
    ensures var a, b, x := Members(t[..j]), Members(t[..j + 1]), t[j];
            && next - a - {x} == next - b && parentOf - a - {x} == parentOf - b && inMM - a - {x} == inMM - b
            && (x in next - a <==> x in next) && (x in next ==> (next - a)[x] == next[x])
            && x in Zeroed(refs, a) && Zeroed(refs, a)[x] == 1 && Zeroed(refs, a)[x := 0] == Zeroed(refs, b)
            && live - (b - Only(toRecycle)) == live - (a - Only(toRecycle)) - (if toRecycle == Some(x) then {} else {x})
            && (toRecycle.Some? ==>
                  (toRecycle.value in t[..j + 1] <==> toRecycle.value in t[..j] || toRecycle.value == x))
  {
    MembersNext(t, j);
    hide Distinct;
  }

  lemma MembersNext(t: seq<Item>, j: nat)
    requires j < |t| && Distinct(t)
    ensures Members(t[..j + 1]) == Members(t[..j]) + {t[j]} && t[j] !in Members(t[..j])
  {
    assert t[..j + 1] == t[..j] + [t[j]];
  }

  /** `x` takes the place of `y` in the chain of `p`. */
  ghost predicate Replaces(s: State, s': State, p: Item, y: Item, x: Item) {
    exists i: nat :: CanReplace(s, p, i, x) && s.chains[p][i] == y && s' == WithReplaced(s, p, i, x)
  }

  lemma ChainSpelled(s: State, p: Item)
    requires Valid(s) && p in s.chains
    ensures var t := s.chains[p];
            && Distinct(t)
            && (forall j :: 0 <= j < |t| ==> t[j] in s.parentOf && s.parentOf[t[j]] == p)
            && (forall j :: 0 <= j < |t| - 1 ==> t[j] in s.next && s.next[t[j]] == t[j + 1])
            && (t != [] ==> t[|t| - 1] !in s.next)
  {
    ChainFacts(s, p);
    assert Spelled(s.next, s.chains[p]);
    assert forall j :: 0 <= j < |s.chains[p]| ==> s.chains[p][j] in s.chains[p];
  }

  lemma ChildIndex(s: State, x: Item) returns (i: nat)
    requires Valid(s) && x in s.parentOf && x in s.inMM
    ensures s.parentOf[x] in s.chains && i < |s.chains[s.parentOf[x]]| && s.chains[s.parentOf[x]][i] == x
  {
    KidLinked(s, x);
    i :| 0 <= i < |s.chains[s.parentOf[x]]| && s.chains[s.parentOf[x]][i] == x;
  }

  lemma NotLinked(s: State, x: Item)
    requires Valid(s) && x in s.parentOf
    ensures x in s.kids <==> x in s.inMM
  {
  }

  lemma HeldStays(s: State, x: Item)
    requires Valid(s) && Held(s, x)
    ensures x !in s.recycled
  {
  }

  lemma RekeyedNone(parentOf: map<Item, Item>, t: seq<Item>, q: Item)
    ensures Rekeyed(parentOf, t[..0], q) == parentOf
  {
  }

  lemma RekeyedOne(parentOf: map<Item, Item>, t: seq<Item>, j: nat, q: Item)
    requires j < |t| && t[j] in parentOf
    ensures Rekeyed(parentOf, t[..j], q)[t[j] := q] == Rekeyed(parentOf, t[..j + 1], q)
  {
    assert t[..j + 1] == t[..j] + [t[j]];
  }

  lemma HeadKnown(s: State, p: Item)
    requires Valid(s)
    ensures p in s.hasChained <==> p in s.chains
    ensures p in s.chains ==> p in s.heads && s.chains[p] != [] && s.heads[p] == s.chains[p][0]
    ensures p in s.chains ==> (s.heads[p] in s.next <==> |s.chains[p]| > 1)
  {
    if p in s.chains {
      assert Spelled(s.next, s.chains[p]);
      assert |s.chains[p]| > 1 ==> s.chains[p][0] in s.next;
    }
  }
}
