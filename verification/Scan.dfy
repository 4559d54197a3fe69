/** Scanning keys page by page: a page ends after so many matching keys, and the next one starts
    behind the last key returned. */
module Scan {
  import opened Basics
  import opened TableIterator
  import Glob

  datatype Page = Page(keys: seq<Key>, hasMore: bool, nextCursor: Key)

  /** Whether a key is wanted. */
  predicate Wanted(pattern: string, k: Key) {
    pattern == [] || pattern == "*" || Glob.MatchesLines(pattern, k)
  }

  /** Counts up to 10000 stay as they are; without one there are 100 keys to a page. */
  function Clamp(count: int): (n: nat)
    ensures 1 <= n <= 10000 && (1 <= count <= 10000 ==> n == count)
    ensures (count <= 0 ==> n == 100) && (count > 10000 ==> n == 10000)
  {
    if count <= 0 then 100 else if count > 10000 then 10000 else count
  }

  /** The keys behind the cursor: all of them for an empty one, none if it is not there. */
  function Behind(order: seq<Key>, cursor: Key): seq<Key> {
    if cursor == [] then order else BehindKey(order, cursor)
  }

  function BehindKey(order: seq<Key>, k: Key): seq<Key> {
    if order == [] then [] else if order[0] == k then order[1..] else BehindKey(order[1..], k)
  }

  /** The first `n` wanted keys; there is more if any key follows the last of them. */
  function TakePage(rest: seq<Key>, pattern: string, n: nat): Page
    requires n > 0
  {
    if rest == [] then Page([], false, [])
    else if !Wanted(pattern, rest[0]) then TakePage(rest[1..], pattern, n)
    else if n == 1 then
      if |rest| > 1 then Page([rest[0]], true, rest[0]) else Page([rest[0]], false, [])
    else Prefixed([rest[0]], TakePage(rest[1..], pattern, n - 1))
  }

  function Prefixed(keys: seq<Key>, p: Page): Page {
    p.(keys := keys + p.keys)
  }

  method ScanPage(t: Table, pattern: string, cursor: Key, count: int) returns (page: Page)
    requires |t| > 0
    ensures page == PageAt(t, pattern, cursor, count)
  {
    hide TakePage, BehindKey, Wanted, Clamp, KeysFrom, Iterator.Rest;
    var limit := Clamp(count);
    var pastCursor := cursor == [];
    page := Page([], false, []);
    var it := new Iterator();
    it.Reset(t);
    ghost var goal := PageAt(t, pattern, cursor, count);
    assert Prefixed([], goal) == goal;
    while !it.AtEnd(t)
      invariant it.Good(t) && page.hasMore == false && page.nextCursor == [] && |page.keys| < limit
      invariant if pastCursor then Prefixed(page.keys, TakePage(it.Rest(t), pattern, limit - |page.keys|)) == goal
                else page.keys == [] && TakePage(BehindKey(it.Rest(t), cursor), pattern, limit) == goal
      decreases |it.Rest(t)|
    {
      var key := it.elems[it.cursor];
      ghost var rest := it.Rest(t);
      RestFirst(t, it);
      BehindStep(rest, cursor);
      TakeStep(rest, pattern, limit - |page.keys|);
      if !pastCursor {
        pastCursor := key == cursor;
      } else {
        var wanted := Glob.MatchesPattern(key, pattern);
        WantedIs(pattern, key);
        if wanted {
          ghost var before := page.keys;
          page := page.(keys := page.keys + [key]);
          assert forall p :: Prefixed(before, Prefixed([key], p)) == Prefixed(page.keys, p);
          if |page.keys| >= limit {
            it.Advance(t);
            RestEnds(t, it);
            if !it.AtEnd(t) {
              page := page.(hasMore := true, nextCursor := key);
            }
            return;
          }
        }
      }
      it.Advance(t);
    }
    RestEnds(t, it);
    NothingLeft(cursor, pattern, limit - |page.keys|);
    NothingLeft(cursor, pattern, limit);
  }

  lemma WantedIs(pattern: string, k: Key)
    ensures Wanted(pattern, k) <==> pattern == [] || pattern == "*" || Glob.MatchesLines(pattern, k)
  {
  }

  lemma BehindStep(rest: seq<Key>, k: Key)
    requires rest != []
    ensures BehindKey(rest, k) == if rest[0] == k then rest[1..] else BehindKey(rest[1..], k)
  {
  }

  lemma TakeStep(rest: seq<Key>, pattern: string, n: nat)
    requires rest != [] && n > 0
    ensures TakePage(rest, pattern, n) ==
            if !Wanted(pattern, rest[0]) then TakePage(rest[1..], pattern, n)
            else if n == 1 then Page([rest[0]], |rest| > 1, if |rest| > 1 then rest[0] else [])
            else Prefixed([rest[0]], TakePage(rest[1..], pattern, n - 1))
  {
  }

  lemma NothingLeft(cursor: Key, pattern: string, n: nat)
    requires n > 0
    ensures BehindKey([], cursor) == [] && TakePage([], pattern, n) == Page([], false, [])
  {
  }

  function PageAt(t: Table, pattern: string, cursor: Key, count: int): Page {
    TakePage(Behind(IterationOrder(t), cursor), pattern, Clamp(count))
  }

  lemma RestFirst(t: Table, it: Iterator)
    requires it.Good(t) && !it.AtEnd(t)
    ensures it.Rest(t) != [] && it.Rest(t)[0] == it.elems[it.cursor]
  {
  }

  lemma RestEnds(t: Table, it: Iterator)
    requires it.Good(t)
    ensures it.AtEnd(t) <==> it.Rest(t) == []
  {
  }

  // ---------- following the cursor ----------

  function Filter(ks: seq<Key>, pattern: string): seq<Key> {
    if ks == [] then []
    else (if Wanted(pattern, ks[0]) then [ks[0]] else []) + Filter(ks[1..], pattern)
  }

  /** Keys are not empty and not repeated. */
  predicate Proper(order: seq<Key>) {
    Distinct(order) && [] !in order
  }

  lemma {:induction false} BehindUnique(before: seq<Key>, k: Key, after: seq<Key>)
    requires k !in before
    ensures BehindKey(before + [k] + after, k) == after
  {
    var s := before + [k] + after;
    if before == [] {
      assert s[0] == k && s[1..] == after;
    } else {
      assert s[0] == before[0] && s[1..] == before[1..] + [k] + after;
      BehindUnique(before[1..], k, after);
    }
  }

  /** A page and the wanted keys behind it are the wanted keys it started from. */
  lemma {:induction false} PageSplits(order: seq<Key>, before: seq<Key>, rest: seq<Key>, pattern: string, n: nat)
    requires Proper(order) && order == before + rest && n > 0
    ensures var p := TakePage(rest, pattern, n);
            && |p.keys| <= n
            && (p.hasMore ==> p.nextCursor != [] && |BehindKey(order, p.nextCursor)| < |rest| &&
                              exists i :: 0 <= i <= |order| && BehindKey(order, p.nextCursor) == order[i..])
            && p.keys + Filter(if p.hasMore then BehindKey(order, p.nextCursor) else [], pattern) ==
                 Filter(rest, pattern)
    decreases |rest|
  {
    hide Wanted;
    if rest != [] {
      var k := rest[0];
      assert order == (before + [k]) + rest[1..];
      if !Wanted(pattern, k) {
        PageSplits(order, before + [k], rest[1..], pattern, n);
      } else if n == 1 {
        if |rest| > 1 {
          assert order == before + [k] + rest[1..];
          NotBefore(order, before, k, rest[1..]);
          BehindUnique(before, k, rest[1..]);
          assert order[|before| + 1..] == rest[1..];
        } else {
          assert rest[1..] == [];
        }
      } else {
        PageSplits(order, before + [k], rest[1..], pattern, n - 1);
      }
    }
  }

  /** A page says there is more exactly when it is full and does not end with the last key, and then
      its last key is the cursor. */
  lemma {:induction false} MoreExactly(rest: seq<Key>, pattern: string, n: nat)
    requires Distinct(rest) && n > 0
    ensures var p := TakePage(rest, pattern, n);
            && (forall k :: k in p.keys ==> k in rest)
            && (p.hasMore <==> |p.keys| == n && p.keys[n - 1] != rest[|rest| - 1])
            && p.nextCursor == if p.hasMore then p.keys[n - 1] else []
    decreases |rest|
  {
    hide Wanted;
    if rest != [] {
      var k, m := rest[0], if n == 1 then 1 else n - 1;
      MoreExactly(rest[1..], pattern, n);
      MoreExactly(rest[1..], pattern, m);
      assert |rest| > 1 ==> rest[1..][|rest| - 2] == rest[|rest| - 1];
    }
  }

  lemma {:induction false} NothingBehind(order: seq<Key>, k: Key)
    requires k !in order
    ensures BehindKey(order, k) == []
  {
    if order != [] {
      NothingBehind(order[1..], k);
    }
  }

  /** A cursor that is no longer there ends the scan. */
  lemma LostCursor(t: Table, pattern: string, cursor: Key, count: int)
    requires cursor != [] && cursor !in IterationOrder(t)
    ensures PageAt(t, pattern, cursor, count) == Page([], false, [])
  {
    NothingBehind(IterationOrder(t), cursor);
  }

  lemma NotBefore(order: seq<Key>, before: seq<Key>, k: Key, after: seq<Key>)
    requires Proper(order) && order == before + [k] + after
    ensures k !in before && k != []
  {
    assert order[|before|] == k;
    forall i | 0 <= i < |before| ensures before[i] != k {
      assert order[i] == before[i];
    }
  }

  function KeysOn(pages: seq<Page>): seq<Key> {
    if pages == [] then [] else KeysOn(pages[..|pages| - 1]) + pages[|pages| - 1].keys
  }

  predicate Fits(page: Page, count: int) {
    if page.hasMore then |page.keys| == Clamp(count) else |page.keys| <= Clamp(count)
  }

  /** Pages that follow each other from an empty cursor on, none longer than the clamped count, and
      all but the last exactly so long. */
  predicate Paged(t: Table, pattern: string, count: int, pages: seq<Page>) {
    && (pages != [] ==> pages[0] == PageAt(t, pattern, [], count))
    && (forall i :: 0 < i < |pages| ==> pages[i] == PageAt(t, pattern, pages[i - 1].nextCursor, count))
    && (forall i :: 0 <= i < |pages| ==> Fits(pages[i], count) && (i < |pages| - 1 ==> pages[i].hasMore))
  }

  /** Half-way: the cursor is that of the last page, and the wanted keys from `i` on are still to come. */
  ghost predicate Scanning(t: Table, pattern: string, count: int, pages: seq<Page>, hasMore: bool, cursor: Key,
      i: int) {
    var order := IterationOrder(t);
    && Paged(t, pattern, count, pages) && 0 <= i <= |order|
    && (if pages == [] then hasMore && cursor == []
        else hasMore == pages[|pages| - 1].hasMore && cursor == pages[|pages| - 1].nextCursor)
    && (hasMore ==> Behind(order, cursor) == order[i..])
    && KeysOn(pages) + Filter(if hasMore then order[i..] else [], pattern) == Filter(order, pattern)
  }

  /** Following the cursor until there is no more ends, and the pages hold exactly the wanted keys in
      iteration order. */
  method ScanAll(t: Table, pattern: string, count: int) returns (pages: seq<Page>)
    requires |t| > 0 && Proper(IterationOrder(t))
    ensures Paged(t, pattern, count, pages) && pages != [] && !pages[|pages| - 1].hasMore
    ensures KeysOn(pages) == Filter(IterationOrder(t), pattern)
  {
    hide Scanning, PageAt, KeysFrom, Proper, Paged, KeysOn, Filter;
    var cursor: Key := [];
    pages := [];
    var hasMore := true;
    ghost var i := 0;
    ScanStarts(t, pattern, count);
    while hasMore
      invariant i <= |IterationOrder(t)| && Scanning(t, pattern, count, pages, hasMore, cursor, i)
      decreases hasMore, |IterationOrder(t)| - i
    {
      var page := ScanPage(t, pattern, cursor, count);
      i := ScanNext(t, pattern, count, pages, cursor, i);
      pages := pages + [page];
      hasMore, cursor := page.hasMore, page.nextCursor;
    }
    ScanEnds(t, pattern, count, pages, cursor, i);
  }

  lemma ScanStarts(t: Table, pattern: string, count: int)
    ensures Scanning(t, pattern, count, [], true, [], 0)
  {
    assert IterationOrder(t)[0..] == IterationOrder(t);
  }

  lemma Regroup(a: seq<Key>, b: seq<Key>, c: seq<Key>)
    ensures a + (b + c) == a + b + c
  {
  }

  lemma ScanNext(t: Table, pattern: string, count: int, pages: seq<Page>, cursor: Key, i: nat) returns (j: nat)
    requires Proper(IterationOrder(t)) && Scanning(t, pattern, count, pages, true, cursor, i)
    ensures var page := PageAt(t, pattern, cursor, count);
            && Scanning(t, pattern, count, pages + [page], page.hasMore, page.nextCursor, j)
            && (page.hasMore ==> j > i) && j <= |IterationOrder(t)|
  {
    hide PageAt, KeysFrom, Proper, KeysOn, Filter, Behind, Fits, Paged;
    var order, page := IterationOrder(t), PageAt(t, pattern, cursor, count);
    PageFollows(t, i, pattern, cursor, count);
    KeysNext(pages, page);
    PagedNext(t, pattern, count, pages, cursor);
    var rest := Filter(if page.hasMore then Behind(order, page.nextCursor) else [], pattern);
    Regroup(KeysOn(pages), page.keys, rest);
    var all := pages + [page];
    assert all[|all| - 1] == page && KeysOn(all) + rest == Filter(order, pattern);
    j := i;
    if page.hasMore {
      j :| 0 <= j <= |order| && Behind(order, page.nextCursor) == order[j..] && j > i;
    }
  }

  lemma PagedNext(t: Table, pattern: string, count: int, pages: seq<Page>, cursor: Key)
    requires Paged(t, pattern, count, pages) && Fits(PageAt(t, pattern, cursor, count), count)
    requires if pages == [] then cursor == [] else pages[|pages| - 1].hasMore && cursor == pages[|pages| - 1].nextCursor
    ensures Paged(t, pattern, count, pages + [PageAt(t, pattern, cursor, count)])
  {
    hide PageAt, Fits;
  }

  lemma ScanEnds(t: Table, pattern: string, count: int, pages: seq<Page>, cursor: Key, i: int)
    requires Scanning(t, pattern, count, pages, false, cursor, i)
    ensures Paged(t, pattern, count, pages) && pages != [] && !pages[|pages| - 1].hasMore
    ensures KeysOn(pages) == Filter(IterationOrder(t), pattern)
  {
    hide PageAt, KeysFrom, KeysOn, Paged;
    assert Filter([], pattern) == [];
  }

  lemma KeysNext(pages: seq<Page>, page: Page)
    ensures KeysOn(pages + [page]) == KeysOn(pages) + page.keys
  {
    assert (pages + [page])[..|pages|] == pages;
  }

  lemma PageFollows(t: Table, i: nat, pattern: string, cursor: Key, count: int)
    requires var order := IterationOrder(t); Proper(order) && i <= |order| && Behind(order, cursor) == order[i..]
    ensures var order, p := IterationOrder(t), PageAt(t, pattern, cursor, count);
            && Fits(p, count)
            && (p.hasMore ==> exists j :: 0 <= j <= |order| && Behind(order, p.nextCursor) == order[j..] && j > i)
            && p.keys + Filter(if p.hasMore then Behind(order, p.nextCursor) else [], pattern) ==
                 Filter(order[i..], pattern)
  {
    hide TakePage, Filter, BehindKey, Proper, KeysFrom, Clamp;
    var order := IterationOrder(t);
    assert order == order[..i] + order[i..];
    PageSplits(order, order[..i], order[i..], pattern, Clamp(count));
    ProperSuffix(order, i);
    MoreExactly(order[i..], pattern, Clamp(count));
    var p := PageAt(t, pattern, cursor, count);
    if p.hasMore {
      var j :| 0 <= j <= |order| && BehindKey(order, p.nextCursor) == order[j..];
      assert |order[j..]| == |order| - j && |order[i..]| == |order| - i;
      assert Behind(order, p.nextCursor) == order[j..] && j > i;
    }
  }

  lemma ProperSuffix(order: seq<Key>, i: nat)
    requires Proper(order) && i <= |order|
    ensures Distinct(order[i..])
  {
  }

  /** On a valid table the iteration order is proper if no key is empty. */
  lemma {:induction false} ValidOrder(t: Table, hash: Key -> nat, b: nat)
    requires Valid(t, hash) && b <= |t| && (forall c :: 0 <= c < |t| ==> [] !in t[c])
    ensures Proper(KeysFrom(t, b))
    ensures forall k :: k in KeysFrom(t, b) ==> BucketOf(hash, k, |t|) >= b
    decreases |t| - b
  {
    hide BucketOf;
    if b < |t| {
      ValidOrder(t, hash, b + 1);
      assert forall k :: k in t[b] ==> BucketOf(hash, k, |t|) == b;
      DistinctConcat(t[b], KeysFrom(t, b + 1));
    }
  }
}
