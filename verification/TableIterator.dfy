/** Iterating over the hash table: one bucket at a time is copied under its lock, and the copy is
    walked while the table goes on changing. A bucket is the sequence of its keys, in chain order. */
module TableIterator {
  import opened Basics
  import HashTable

  type Table = seq<seq<Key>>

  /** Keys are unique, and each is in its own bucket. */
  ghost predicate Valid(t: Table, hash: Key -> nat) {
    && |t| > 0
    && (forall b :: 0 <= b < |t| ==> Distinct(t[b]))
    && (forall b, k :: 0 <= b < |t| && k in t[b] ==> BucketOf(hash, k, |t|) == b)
  }

  /** The keys in the chains of a hash table. */
  function KeysOf(chains: seq<seq<HashTable.Node>>): Table {
    seq(|chains|, b requires 0 <= b < |chains| => seq(|chains[b]|, i requires 0 <= i < |chains[b]| => chains[b][i].key))
  }

  /** What a hash table holds is a table to iterate over, and its keys are the bound ones. */
  lemma HeldTable(chains: seq<seq<HashTable.Node>>, bound: map<Key, HashTable.Node>, hash: Key -> nat)
    requires HashTable.Holds(chains, bound, hash)
    ensures Valid(KeysOf(chains), hash)
    ensures forall k :: k in bound <==> k in KeysOf(chains)[BucketOf(hash, k, |chains|)]
  {
    hide BucketOf;
    var t := KeysOf(chains);
    forall b, k | 0 <= b < |t| && k in t[b] ensures BucketOf(hash, k, |t|) == b && k in bound {
      var i :| 0 <= i < |t[b]| && t[b][i] == k;
      assert chains[b][i] in chains[b];
    }
    forall k | k in bound ensures k in t[BucketOf(hash, k, |t|)] {
      var b := BucketOf(hash, k, |t|);
      var i :| 0 <= i < |chains[b]| && chains[b][i] == bound[k];
      assert t[b][i] == k;
    }
  }

  /** The keys of a bucket for which a handle can be made; the others are skipped. */
  function Loaded(s: seq<Key>, obtainable: set<Key>): seq<Key> {
    if s == [] then []
    else (if s[0] in obtainable then [s[0]] else []) + Loaded(s[1..], obtainable)
  }

  // ---------- the iterator among other threads ----------

  datatype Cursor =
    // about to copy bucket `b`, or at the end when there is none
    | Scanning(b: nat)
    | At(b: nat, i: nat, elems: seq<Key>)
    | End

  datatype State = State(
    table: Table, obtainable: set<Key>, it: Cursor,
    // history: the keys visited, and the copies made
    out: seq<Key>, loads: seq<seq<Key>>)

  datatype Action = Mutate(table: Table, obtainable: set<Key>) | Step

  ghost predicate Enabled(s: State, a: Action, hash: Key -> nat) {
    match a
    case Mutate(t, _) => |t| == |s.table| && Valid(t, hash)
    case Step => !s.it.End? && (s.it.At? ==> s.it.i < |s.it.elems|)
  }

  function Advance(s: State): State
    requires !s.it.End? && (s.it.At? ==> s.it.i < |s.it.elems|)
  {
    match s.it
    case Scanning(b) =>
      if b >= |s.table| then s.(it := End)
      else
        var elems := Loaded(s.table[b], s.obtainable);
        if elems == [] then s.(it := Scanning(b + 1), loads := s.loads + [elems])
        else s.(it := At(b, 0, elems), out := s.out + [elems[0]], loads := s.loads + [elems])
    case At(b, i, elems) =>
      if i + 1 < |elems| then s.(it := At(b, i + 1, elems), out := s.out + [elems[i + 1]])
      else s.(it := Scanning(b + 1))
  }

  ghost function Apply(s: State, a: Action, hash: Key -> nat): State
    requires Enabled(s, a, hash)
  {
    match a
    case Mutate(t, o) => s.(table := t, obtainable := o)
    case Step => Advance(s)
  }

  ghost predicate Runs(s: State, acts: seq<Action>, hash: Key -> nat)
    decreases |acts|
  {
    acts == [] || (Enabled(s, acts[0], hash) && Runs(Apply(s, acts[0], hash), acts[1..], hash))
  }

  ghost function Exec(s: State, acts: seq<Action>, hash: Key -> nat): State
    requires Runs(s, acts, hash)
    decreases |acts|
  {
    if acts == [] then s else Exec(Apply(s, acts[0], hash), acts[1..], hash)
  }

  function Start(t: Table, obtainable: set<Key>): State {
    State(t, obtainable, Scanning(0), [], [])
  }

  /** The key has a handle to give in every state of the run. */
  ghost predicate AlwaysThere(s: State, acts: seq<Action>, hash: Key -> nat, k: Key)
    requires Runs(s, acts, hash)
    decreases |acts|
  {
    && |s.table| > 0 && k in s.table[BucketOf(hash, k, |s.table|)] && k in s.obtainable
    && (acts == [] || AlwaysThere(Apply(s, acts[0], hash), acts[1..], hash, k))
  }

  // ---------- the invariant ----------

  function Flatten(ss: seq<seq<Key>>): seq<Key> {
    if ss == [] then [] else Flatten(ss[..|ss| - 1]) + ss[|ss| - 1]
  }

  /** The copies are of different buckets, so they share no key. */
  ghost predicate LoadsOk(loads: seq<seq<Key>>, hash: Key -> nat, buckets: nat) {
    && buckets > 0 && |loads| <= buckets
    && (forall b :: 0 <= b < |loads| ==> Distinct(loads[b]))
    && (forall b, k :: 0 <= b < |loads| && k in loads[b] ==> BucketOf(hash, k, buckets) == b)
  }

  ghost predicate Inv(s: State, hash: Key -> nat) {
    && Valid(s.table, hash)
    && LoadsOk(s.loads, hash, |s.table|)
    && match s.it {
         case Scanning(b) => |s.loads| == b && s.out == Flatten(s.loads)
         case At(b, i, elems) =>
           && |s.loads| == b + 1 && s.loads[b] == elems && i < |elems|
           && s.out == Flatten(s.loads[..b]) + elems[..i + 1]
         case End => |s.loads| == |s.table| && s.out == Flatten(s.loads)
       }
  }

  lemma {:induction false} LoadedKeys(s: seq<Key>, obtainable: set<Key>)
    requires Distinct(s)
    ensures Distinct(Loaded(s, obtainable))
    ensures forall k :: k in Loaded(s, obtainable) <==> k in s && k in obtainable
  {
    if s != [] {
      LoadedKeys(s[1..], obtainable);
      assert s == [s[0]] + s[1..];
      assert s[0] !in s[1..];
    }
  }

  lemma FlattenMore(loads: seq<seq<Key>>, elems: seq<Key>)
    ensures Flatten(loads + [elems]) == Flatten(loads) + elems
  {
    assert (loads + [elems])[..|loads|] == loads;
  }

  lemma CopyOk(s: State, b: nat, hash: Key -> nat)
    requires Valid(s.table, hash) && LoadsOk(s.loads, hash, |s.table|) && |s.loads| == b < |s.table|
    ensures LoadsOk(s.loads + [Loaded(s.table[b], s.obtainable)], hash, |s.table|)
  {
    hide BucketOf, Loaded, Distinct;
    LoadedKeys(s.table[b], s.obtainable);
  }

  lemma ScanKeeps(s: State, hash: Key -> nat)
    requires Inv(s, hash) && s.it.Scanning?
    ensures Inv(Advance(s), hash)
  {
    hide BucketOf, Loaded, Flatten, Valid, LoadsOk, Distinct;
    var b := s.it.b;
    if b < |s.table| {
      var elems := Loaded(s.table[b], s.obtainable);
      CopyOk(s, b, hash);
      FlattenMore(s.loads, elems);
      assert (s.loads + [elems])[..b] == s.loads;
      assert elems != [] ==> elems[..1] == [elems[0]];
      assert elems == [] ==> Flatten(s.loads) + elems == Flatten(s.loads);
    } else {
      CopiesWithin(s.loads, hash, |s.table|);
    }
  }

  lemma CopiesWithin(loads: seq<seq<Key>>, hash: Key -> nat, buckets: nat)
    requires LoadsOk(loads, hash, buckets)
    ensures |loads| <= buckets
  {
  }

  lemma WalkKeeps(s: State, hash: Key -> nat)
    requires Inv(s, hash) && s.it.At? && s.it.i < |s.it.elems|
    ensures Inv(Advance(s), hash)
  {
    hide BucketOf, Flatten, Valid, LoadsOk;
    var At(b, i, elems) := s.it;
    if i + 1 < |elems| {
      assert elems[..i + 2] == elems[..i + 1] + [elems[i + 1]];
    } else {
      assert elems[..i + 1] == elems;
      FlattenMore(s.loads[..b], elems);
      assert s.loads[..b] + [elems] == s.loads;
    }
  }

  lemma AdvanceKeeps(s: State, hash: Key -> nat)
    requires Inv(s, hash) && Enabled(s, Step, hash)
    ensures Inv(Advance(s), hash)
  {
    hide Inv;
    if s.it.Scanning? {
      ScanKeeps(s, hash);
    } else {
      WalkKeeps(s, hash);
    }
  }

  lemma {:induction false} RunKeeps(s: State, acts: seq<Action>, hash: Key -> nat)
    requires Inv(s, hash) && Runs(s, acts, hash)
    ensures Inv(Exec(s, acts, hash), hash)
    decreases |acts|
  {
    if acts != [] {
      if acts[0] == Step {
        AdvanceKeeps(s, hash);
      }
      RunKeeps(Apply(s, acts[0], hash), acts[1..], hash);
    }
  }

  // ---------- what every run guarantees ----------

  lemma {:induction false} FlattenKeys(loads: seq<seq<Key>>, hash: Key -> nat, buckets: nat)
    requires LoadsOk(loads, hash, buckets)
    ensures Distinct(Flatten(loads))
    ensures forall k :: k in Flatten(loads) <==>
              BucketOf(hash, k, buckets) < |loads| && k in loads[BucketOf(hash, k, buckets)]
  {
    hide BucketOf;
    if loads != [] {
      var n := |loads| - 1;
      FlattenKeys(loads[..n], hash, buckets);
      assert Flatten(loads) == Flatten(loads[..n]) + loads[n];
      assert forall k :: k in Flatten(loads[..n]) ==> BucketOf(hash, k, buckets) < n;
      assert forall k :: k in loads[n] ==> BucketOf(hash, k, buckets) == n;
      DistinctConcat(Flatten(loads[..n]), loads[n]);
    }
  }

  lemma DistinctConcat(a: seq<Key>, b: seq<Key>)
    requires Distinct(a) && Distinct(b) && (forall k :: k in a ==> k !in b)
    ensures Distinct(a + b)
  {
    forall i, j | 0 <= i < j < |a + b| ensures (a + b)[i] != (a + b)[j] {
      if i < |a| <= j {
        assert a[i] in a && b[j - |a|] in b;
      }
    }
  }

  /** The keys visited so far, in any state: each once. */
  lemma NeverTwice(t: Table, obtainable: set<Key>, acts: seq<Action>, hash: Key -> nat)
    requires Valid(t, hash) && Runs(Start(t, obtainable), acts, hash)
    ensures Distinct(Exec(Start(t, obtainable), acts, hash).out)
  {
    RunKeeps(Start(t, obtainable), acts, hash);
    var s := Exec(Start(t, obtainable), acts, hash);
    FlattenKeys(s.loads, hash, |s.table|);
    if s.it.At? {
      // what is visited is a beginning of all that was copied
      var b, elems := s.it.b, s.it.elems;
      FlattenMore(s.loads[..b], elems);
      assert s.loads[..b] + [elems] == s.loads;
      assert s.out == Flatten(s.loads)[..|s.out|];
    }
  }

  /** A key that is there throughout is in the copy of its bucket. */
  lemma {:induction false} AlwaysCopied(s: State, acts: seq<Action>, hash: Key -> nat, k: Key)
    requires Inv(s, hash) && Runs(s, acts, hash) && AlwaysThere(s, acts, hash, k)
    requires var b := BucketOf(hash, k, |s.table|); b < |s.loads| ==> k in s.loads[b]
    ensures var s' := Exec(s, acts, hash);
            |s'.table| == |s.table| && (var b := BucketOf(hash, k, |s.table|); b < |s'.loads| ==> k in s'.loads[b])
    decreases |acts|
  {
    if acts != [] {
      var s1 := Apply(s, acts[0], hash);
      if acts[0] == Step {
        AdvanceKeeps(s, hash);
        CopiedNow(s, hash, k);
      }
      hide Inv, Advance, BucketOf;
      AlwaysCopied(s1, acts[1..], hash, k);
    }
  }

  lemma CopiedNow(s: State, hash: Key -> nat, k: Key)
    requires Inv(s, hash) && Enabled(s, Step, hash)
    requires k in s.table[BucketOf(hash, k, |s.table|)] && k in s.obtainable
    requires var b := BucketOf(hash, k, |s.table|); b < |s.loads| ==> k in s.loads[b]
    ensures var b := BucketOf(hash, k, |s.table|); b < |Advance(s).loads| ==> k in Advance(s).loads[b]
  {
    hide BucketOf, Flatten, Loaded;
    if s.it.Scanning? && s.it.b < |s.table| {
      LoadedKeys(s.table[s.it.b], s.obtainable);
    }
  }

  /** When the iterator has reached the end, every key that was there throughout was visited, and
      exactly once, whatever else happened to the table meanwhile. */
  lemma AlwaysVisited(t: Table, obtainable: set<Key>, acts: seq<Action>, hash: Key -> nat, k: Key)
    requires Valid(t, hash) && Runs(Start(t, obtainable), acts, hash)
    requires AlwaysThere(Start(t, obtainable), acts, hash, k)
    requires Exec(Start(t, obtainable), acts, hash).it.End?
    ensures var out := Exec(Start(t, obtainable), acts, hash).out;
            k in out && Distinct(out)
  {
    RunKeeps(Start(t, obtainable), acts, hash);
    AlwaysCopied(Start(t, obtainable), acts, hash, k);
    var s := Exec(Start(t, obtainable), acts, hash);
    FlattenKeys(s.loads, hash, |s.table|);
  }

  /** The key was in its bucket, with a handle to give, in some state of the run. */
  ghost predicate ThereSometime(s: State, acts: seq<Action>, hash: Key -> nat, k: Key)
    requires Runs(s, acts, hash)
    decreases |acts|
  {
    || (|s.table| > 0 && k in s.table[BucketOf(hash, k, |s.table|)] && k in s.obtainable)
    || (acts != [] && ThereSometime(Apply(s, acts[0], hash), acts[1..], hash, k))
  }

  lemma CopiedThen(s: State, hash: Key -> nat, k: Key)
    requires Inv(s, hash) && Enabled(s, Step, hash) && k in Flatten(Advance(s).loads) && k !in Flatten(s.loads)
    ensures k in s.table[BucketOf(hash, k, |s.table|)] && k in s.obtainable
  {
    hide BucketOf, Loaded, Flatten;
    if s.it.Scanning? && s.it.b < |s.table| {
      LoadedKeys(s.table[s.it.b], s.obtainable);
      FlattenMore(s.loads, Loaded(s.table[s.it.b], s.obtainable));
    }
  }

  lemma {:induction false} CopiedWasThere(s: State, acts: seq<Action>, hash: Key -> nat, k: Key)
    requires Inv(s, hash) && Runs(s, acts, hash) && k in Flatten(Exec(s, acts, hash).loads) && k !in Flatten(s.loads)
    ensures ThereSometime(s, acts, hash, k)
    decreases |acts|
  {
    if acts != [] {
      var s1 := Apply(s, acts[0], hash);
      if acts[0] == Step {
        AdvanceKeeps(s, hash);
        if k in Flatten(s1.loads) {
          CopiedThen(s, hash, k);
        }
      }
      hide Inv, Advance, BucketOf, Flatten;
      if k !in Flatten(s1.loads) {
        CopiedWasThere(s1, acts[1..], hash, k);
      }
    }
  }

  /** Nothing is visited that was not there at some point. */
  lemma VisitedWasThere(t: Table, obtainable: set<Key>, acts: seq<Action>, hash: Key -> nat, k: Key)
    requires Valid(t, hash) && Runs(Start(t, obtainable), acts, hash)
    requires k in Exec(Start(t, obtainable), acts, hash).out
    ensures ThereSometime(Start(t, obtainable), acts, hash, k)
  {
    RunKeeps(Start(t, obtainable), acts, hash);
    var s := Exec(Start(t, obtainable), acts, hash);
    if s.it.At? {
      var b, elems := s.it.b, s.it.elems;
      FlattenMore(s.loads[..b], elems);
      assert s.loads[..b] + [elems] == s.loads;
    }
    CopiedWasThere(Start(t, obtainable), acts, hash, k);
  }

  /** Every step copies one bucket more, visits one key more, or goes on from the last key of a copy
      to the next bucket or from the last bucket to the end; what was visited stays visited. */
  lemma StepAdvances(s: State, hash: Key -> nat)
    requires Inv(s, hash) && Enabled(s, Step, hash)
    ensures var s' := Advance(s);
            && s.out <= s'.out && |s'.out| <= |s.out| + 1 && s'.table == s.table && s'.obtainable == s.obtainable
            && (|| |s'.loads| == |s.loads| + 1
                || (s'.loads == s.loads && |s'.out| == |s.out| + 1)
                || (s'.loads == s.loads && s.it.At? && s'.it == Scanning(s.it.b + 1) && s.it.i + 1 == |s.it.elems|)
                || (s.it == Scanning(|s.table|) && s'.it.End?))
  {
  }

  // ---------- the iterator by itself ----------

  /** The keys of the buckets from `b` on, in iteration order. */
  function KeysFrom(t: Table, b: nat): seq<Key>
    decreases |t| - b
  {
    if b >= |t| then [] else t[b] + KeysFrom(t, b + 1)
  }

  function IterationOrder(t: Table): seq<Key> {
    KeysFrom(t, 0)
  }

  /** An iterator over a table whose handles can all be made. */
  class Iterator {
    var bucket: nat
    var cursor: nat
    var elems: seq<Key>

    constructor ()
    {
      bucket, cursor, elems := 0, 0, [];
    }

    predicate AtEnd(t: Table) reads this {
      bucket >= |t|
    }

    /** On a key, or past the last bucket. */
    ghost predicate Good(t: Table) reads this {
      if bucket < |t| then cursor < |elems| else bucket == |t| && cursor == 0 && elems == []
    }

    /** The keys still to be visited, the current one first, if the table stays as it is. */
    ghost function Rest(t: Table): seq<Key> reads this {
      if cursor <= |elems| then elems[cursor..] + KeysFrom(t, bucket + 1) else []
    }

    method Reset(t: Table)
      requires |t| > 0
      modifies this
      ensures Good(t) && Rest(t) == IterationOrder(t)
      ensures bucket < |t| ==> cursor == 0 && elems == t[bucket]
      ensures forall b :: 0 <= b < bucket && b < |t| ==> t[b] == []
    {
      cursor, bucket, elems := 0, 0, t[0];
      while elems == [] && bucket < |t|
        invariant cursor == 0 && bucket <= |t|
        invariant if bucket < |t| then elems == t[bucket] else elems == []
        invariant forall b :: 0 <= b < bucket ==> t[b] == []
        invariant elems + KeysFrom(t, bucket + 1) == IterationOrder(t)
        decreases |t| - bucket
      {
        bucket := bucket + 1;
        if bucket < |t| {
          elems := t[bucket];
        }
      }
    }

    method Advance(t: Table)
      requires Good(t) && bucket < |t|
      modifies this
      ensures Good(t) && old(Rest(t)) != [] && Rest(t) == old(Rest(t))[1..]
      ensures bucket == old(bucket) ==> elems == old(elems) && cursor == old(cursor) + 1
      ensures bucket != old(bucket) ==> bucket > old(bucket) && cursor == 0 && old(cursor) + 1 == |old(elems)|
      ensures bucket != old(bucket) && bucket < |t| ==> elems == t[bucket]
      ensures forall b :: old(bucket) < b < bucket && b < |t| ==> t[b] == []
    {
      hide KeysFrom;
      RestMoves(elems, cursor, KeysFrom(t, bucket + 1));
      cursor := cursor + 1;
      if cursor >= |elems| {
        bucket := bucket + 1;
        var found := false;
        while bucket < |t| && !found
          invariant old(bucket) < bucket <= |t|
          invariant forall b :: old(bucket) < b < bucket ==> t[b] == []
          invariant KeysFrom(t, bucket) == KeysFrom(t, old(bucket) + 1)
          invariant found ==> bucket < |t| && elems == t[bucket] != [] && cursor == 0
          decreases |t| - bucket, !found
        {
          KeysStep(t, bucket);
          elems := t[bucket];
          if elems != [] {
            cursor, found := 0, true;
          } else {
            bucket := bucket + 1;
          }
        }
        if found {
          KeysStep(t, bucket);
          assert elems[0..] == elems;
        } else {
          KeysBeyond(t, bucket);
          KeysBeyond(t, bucket + 1);
          elems, cursor := [], 0;
        }
      }
    }
  }

  lemma RestMoves(elems: seq<Key>, i: nat, later: seq<Key>)
    requires i < |elems|
    ensures (elems[i..] + later)[1..] == elems[i + 1..] + later
    ensures i + 1 == |elems| ==> elems[i + 1..] + later == later
  {
  }

  lemma KeysStep(t: Table, b: nat)
    requires b < |t|
    ensures KeysFrom(t, b) == t[b] + KeysFrom(t, b + 1)
    ensures t[b] == [] ==> KeysFrom(t, b) == KeysFrom(t, b + 1)
  {
  }

  lemma KeysBeyond(t: Table, b: nat)
    requires b >= |t|
    ensures KeysFrom(t, b) == []
  {
  }

  function Erased(t: Table, b: nat, k: Key): Table
    requires b < |t|
  {
    t[b := Erase(t[b], k)]
  }

  /** Half-way through a flush: the buckets behind are empty, the one at hand has lost the keys
      visited, and the ones ahead are as they were. */
  ghost predicate Flushing(t0: Table, t: Table, removed: nat, bucket: nat, cursor: nat, elems: seq<Key>) {
    && |t| == |t0| && bucket <= |t|
    && (forall b :: 0 <= b < bucket ==> t[b] == [])
    && (forall b :: bucket < b < |t| ==> t[b] == t0[b])
    && (if bucket < |t| then elems == t0[bucket] && cursor < |elems| && t[bucket] == elems[cursor..]
          else elems == [] && cursor == 0)
    && removed + |elems| - cursor + |KeysFrom(t0, bucket + 1)| == |IterationOrder(t0)|
  }

  /** Removes every key the iterator meets, while nobody else changes the table. */
  method Flush(t0: Table, hash: Key -> nat) returns (t: Table, removed: nat)
    requires Valid(t0, hash)
    ensures |t| == |t0| && (forall b :: 0 <= b < |t| ==> t[b] == [])
    ensures removed == |IterationOrder(t0)|
  {
    hide BucketOf, KeysFrom, Erase, Erased, Flushing, Iterator.Rest;
    t, removed := t0, 0;
    var it := new Iterator();
    it.Reset(t);
    FlushStarts(t0, it.bucket, it.cursor, it.elems);
    while !it.AtEnd(t)
      invariant it.Good(t) && Flushing(t0, t, removed, it.bucket, it.cursor, it.elems)
      decreases |t| - it.bucket, |it.elems| - it.cursor
    {
      var key := it.elems[it.cursor];
      ghost var b, i, elems, before := it.bucket, it.cursor, it.elems, t;
      FlushRemoves(t0, t, hash, removed, b, i, elems);
      if key in t[BucketOf(hash, key, |t|)] {
        t := Erased(t, BucketOf(hash, key, |t|), key);
        removed := removed + 1;
      }
      it.Advance(t);
      FlushAdvances(t0, before, t, removed - 1, b, i, elems, it.bucket, it.cursor, it.elems);
    }
    FlushEnds(t0, t, removed);
  }

  lemma FlushStarts(t0: Table, bucket: nat, cursor: nat, elems: seq<Key>)
    requires |t0| > 0
             && (if bucket < |t0| then cursor == 0 < |elems| && elems == t0[bucket]
             else bucket == |t0| && cursor == 0 && elems == [])
    requires forall b :: 0 <= b < bucket && b < |t0| ==> t0[b] == []
    ensures Flushing(t0, t0, 0, bucket, cursor, elems)
  {
    SkipEmpty(t0, 0, bucket);
  }

  lemma FlushEnds(t0: Table, t: Table, removed: nat)
    requires Flushing(t0, t, removed, |t|, 0, [])
    ensures |t| == |t0| && (forall b :: 0 <= b < |t| ==> t[b] == []) && removed == |IterationOrder(t0)|
  {
    KeysBeyond(t0, |t| + 1);
  }

  lemma FlushRemoves(t0: Table, t: Table, hash: Key -> nat, removed: nat, b: nat, i: nat, elems: seq<Key>)
    requires Valid(t0, hash) && Flushing(t0, t, removed, b, i, elems) && b < |t|
    ensures BucketOf(hash, elems[i], |t|) == b && elems[i] in t[b]
    ensures Erased(t, b, elems[i]) == t[b := elems[i + 1..]]
  {
    assert elems[i] in t0[b];
    assert elems[i..][0] == elems[i] && elems[i..][1..] == elems[i + 1..];
  }

  lemma FlushAdvances(t0: Table, u: Table, t: Table, n: nat, b: nat, i: nat, elems: seq<Key>, b': nat, i': nat,
      elems': seq<Key>)
    requires Flushing(t0, u, n, b, i, elems) && b < |u| && t == u[b := elems[i + 1..]]
    requires if b' < |t| then i' < |elems'| else b' == |t| && i' == 0 && elems' == []
    requires if b' == b then elems' == elems && i' == i + 1
             else b' > b && i' == 0 && i + 1 == |elems| && (b' < |t| ==> elems' == t[b'])
    requires forall c :: b < c < b' && c < |t| ==> t[c] == []
    ensures Flushing(t0, t, n + 1, b', i', elems')
  {
    hide KeysFrom;
    if b' > b {
      assert forall c :: b < c < b' && c < |t| ==> t0[c] == t[c];
      SkipEmpty(t0, b + 1, b');
      if b' < |t| {
        KeysStep(t0, b');
      } else {
        KeysBeyond(t0, b');
        KeysBeyond(t0, b' + 1);
      }
    }
  }

  lemma {:induction false} SkipEmpty(t: Table, b: nat, c: nat)
    requires b <= c <= |t| && (forall d :: b <= d < c ==> t[d] == [])
    ensures KeysFrom(t, b) == KeysFrom(t, c)
    decreases c - b
  {
    if b < c {
      SkipEmpty(t, b + 1, c);
    }
  }

  // ---------- the hash table's own count ----------

  lemma {:induction false} KeysFlat(t: Table, b: nat)
    requires b <= |t|
    ensures Flatten(t[..b]) + KeysFrom(t, b) == IterationOrder(t)
    decreases b
  {
    if b == 0 {
      assert t[..0] == [];
    } else {
      KeysFlat(t, b - 1);
      assert t[..b] == t[..b - 1] + [t[b - 1]];
      FlattenMore(t[..b - 1], t[b - 1]);
      assert Flatten(t[..b - 1]) + (t[b - 1] + KeysFrom(t, b)) == Flatten(t[..b - 1]) + t[b - 1] + KeysFrom(t, b);
    }
  }

  lemma {:induction false} DistinctSize(s: seq<Key>)
    requires Distinct(s)
    ensures |set k | k in s| == |s|
  {
    if s == [] {
      assert (set k | k in s) == {};
    } else {
      DistinctSize(s[1..]);
      assert (set k | k in s) == {s[0]} + (set k | k in s[1..]);
    }
  }

  /** An iteration over the table nobody else changes meets each bound key once, so a flush removes
      as many keys as the table counts. */
  lemma IterationIsBound(chains: seq<seq<HashTable.Node>>, bound: map<Key, HashTable.Node>, hash: Key -> nat)
    requires HashTable.Holds(chains, bound, hash)
    ensures var order := IterationOrder(KeysOf(chains));
            Distinct(order) && (forall k :: k in order <==> k in bound) && |order| == |bound|
  {
    hide BucketOf;
    var t := KeysOf(chains);
    var order := IterationOrder(t);
    HeldTable(chains, bound, hash);
    KeysFlat(t, |t|);
    assert t[..|t|] == t && order == Flatten(t);
    hide KeysFrom, KeysOf;
    FlattenKeys(t, hash, |t|);
    DistinctSize(order);
    assert (set k | k in order) == bound.Keys;
  }
}
