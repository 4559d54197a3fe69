/** Rate-limit counters: `incr` keeps a decimal number in a cache item and does not let its expiry
    slide, so that the calls on one key fall into fixed windows. */
module Counters {
  import opened Basics

  const INT64_MIN := -0x8000_0000_0000_0000
  const INT64_MAX := 0x7FFF_FFFF_FFFF_FFFF

  type Int64 = n: int | INT64_MIN <= n <= INT64_MAX

  // ---------- printing and parsing integers ----------

  predicate IsDigit(c: char) {
    '0' <= c <= '9'
  }

  function DigitOf(n: nat): (c: char)
    requires n < 10
    ensures IsDigit(c) && DigitValue(c) == n
  {
    ('0' as int + n) as char
  }

  function DigitValue(c: char): nat
    requires IsDigit(c)
  {
    c as int - '0' as int
  }

  function Digits(n: nat): (s: string)
    ensures s != [] && forall c :: c in s ==> IsDigit(c)
  {
    if n < 10 then [DigitOf(n)] else Digits(n / 10) + [DigitOf(n % 10)]
  }

  function ToString(n: int): string {
    if n < 0 then ['-'] + Digits(-n) else Digits(n)
  }

  /** The longest run of digits a string begins with. */
  function DigitPrefix(s: string): (p: string)
    ensures p <= s && forall c :: c in p ==> IsDigit(c)
  {
    if s == [] || !IsDigit(s[0]) then [] else [s[0]] + DigitPrefix(s[1..])
  }

  function Value(p: string): nat
    requires forall c :: c in p ==> IsDigit(c)
  {
    if p == [] then 0 else 10 * Value(p[..|p| - 1]) + DigitValue(p[|p| - 1])
  }

  /** Parses the number a string begins with; what follows it is ignored. There has to be a digit,
      and the number has to fit into 64 bits. */
  function FromChars(s: string): Option<Int64> {
    var negative := s != [] && s[0] == '-';
    var p := DigitPrefix(if negative then s[1..] else s);
    var n: int := if negative then -(Value(p) as int) else Value(p);
    if p == [] || n < INT64_MIN || n > INT64_MAX then None else Some(n)
  }

  lemma {:induction false} ValueDigits(n: nat)
    ensures Value(Digits(n)) == n
  {
    if n >= 10 {
      ValueDigits(n / 10);
      assert Digits(n)[..|Digits(n)| - 1] == Digits(n / 10);
    }
  }

  function Pow10(i: nat): (p: nat)
    ensures p > 0
  {
    if i == 0 then 1 else 10 * Pow10(i - 1)
  }

  /** Printing is decimal: the `i`-th character from the right is the digit that counts 10^i, and
      there is no leading zero. */
  lemma {:induction false} DecimalDigits(n: nat, i: nat)
    requires i < |Digits(n)|
    ensures Digits(n)[|Digits(n)| - 1 - i] == "0123456789"[n / Pow10(i) % 10]
    ensures |Digits(n)| > 1 ==> Digits(n)[0] != '0'
  {
    if n < 10 {
      Numeral(n);
    } else {
      Numeral(n % 10);
      DecimalDigits(n / 10, if i > 0 then i - 1 else 0);
      hide DigitOf;
      if i > 0 {
        DivideTwice(n, 10, Pow10(i - 1));
      }
    }
  }

  lemma Numeral(d: nat)
    requires d < 10
    ensures DigitOf(d) == "0123456789"[d] && (d > 0 ==> DigitOf(d) != '0')
  {
  }

  lemma {:induction false} PrefixOfDigits(p: string, rest: string)
    requires (forall c :: c in p ==> IsDigit(c)) && (rest == [] || !IsDigit(rest[0]))
    ensures DigitPrefix(p + rest) == p
  {
    if p == [] {
      assert p + rest == rest;
    } else {
      PrefixOfDigits(p[1..], rest);
      assert (p + rest)[1..] == p[1..] + rest;
    }
  }

  /** Parsing undoes printing, whatever follows that is not a digit, unless the number is too large. */
  lemma ParseNumber(n: int, rest: string)
    requires rest == [] || !IsDigit(rest[0])
    ensures FromChars(ToString(n) + rest) == if INT64_MIN <= n <= INT64_MAX then Some(n) else None
  {
    hide Value, Digits, DigitPrefix, DigitValue;
    var m: int := if n < 0 then -n else n;
    var d := Digits(m);
    ValueDigits(m);
    PrefixOfDigits(d, rest);
    var s := ToString(n) + rest;
    if n < 0 {
      assert s[1..] == d + rest;
    } else {
      assert s == d + rest && s[0] == d[0] && d[0] in d;
    }
  }

  lemma ParsePrinted(n: Int64, rest: string)
    requires rest == [] || !IsDigit(rest[0])
    ensures FromChars(ToString(n) + rest) == Some(n)
  {
    ParseNumber(n, rest);
  }

  /** There is no number without a digit, right at the start or after a minus sign. */
  lemma NeedsDigit(s: string)
    ensures var t := if s != [] && s[0] == '-' then s[1..] else s;
            t == [] || !('0' <= t[0] <= '9') ==> FromChars(s) == None
  {
  }

  // ---------- incr ----------

  datatype Entry = Entry(value: string, expiry: Time)

  datatype IncrResult = Done(value: Int64, ttlSet: bool) | NotAnInteger | StoreFailed

  const TWO_64 := 0x1_0000_0000_0000_0000

  /** Sums are not checked; they wrap around in two's complement. */
  function Wrap(n: int): Int64 {
    (n - INT64_MIN) % TWO_64 + INT64_MIN
  }

  lemma WrapExact(n: int)
    ensures Wrap(n) == n <==> INT64_MIN <= n <= INT64_MAX
  {
  }

  lemma WrapAdd(n: int, d: int)
    ensures Wrap(Wrap(n) + d) == Wrap(n + d)
  {
    var m := n - INT64_MIN;
    assert m == TWO_64 * (m / TWO_64) + m % TWO_64;
    assert Wrap(n) + d - INT64_MIN == (m + d) - TWO_64 * (m / TWO_64);
  }

  /** The expiry an item gets for a time to live; 0 is for ever. */
  function Stamp(now: Time, ttl: Time): Time {
    if ttl == 0 then 0 else (now + ttl) % TWO_32
  }

  /** What a lookup finds: an item is gone only after its expiry second. */
  function Lookup(e: Option<Entry>, now: Time): Option<Entry> {
    if e.Some? && 0 < e.value.expiry < now then None else e
  }

  predicate Live(e: Entry, now: Time) {
    e.expiry == 0 || e.expiry > now
  }

  function Effective(delta: Int64): Int64 {
    if delta == 0 then 1 else delta
  }

  /** A call that adds `d`. While the old item `e` counts, it has to be a number, which grows by `d`
      modulo 2^64 and keeps its expiry; otherwise counting starts with `d` and a new expiry, and says
      so. Nothing changes when there is no number or storing fails. */
  predicate Counted(
    e: Option<Entry>, e': Option<Entry>, d: Int64, ttl: Time, now: Time, stores: bool, r: IncrResult) {
    if e.Some? && (e.value.expiry == 0 || now < e.value.expiry) then
      match FromChars(e.value.value)
      case None => r == NotAnInteger && e' == e
      case Some(base) =>
        if stores then r == Done(Wrap(base + d), false) && e' == Some(Entry(ToString(Wrap(base + d)), e.value.expiry))
        else r == StoreFailed && e' == e
    else if stores then
      r == Done(d, true) && e' == Some(Entry(ToString(d), if ttl == 0 then 0 else (now + ttl) % 0x1_0000_0000))
    else r == StoreFailed && e' == e
  }

  class CacheManager {
    var cache: map<string, Entry>

    function Stored(key: string): Option<Entry> reads this {
      if key in cache then Some(cache[key]) else None
    }

    /** `stores` tells whether storing the new value succeeds. */
    method Incr(key: string, delta: Int64, ttl: Time, now: Time, stores: bool) returns (r: IncrResult)
      modifies this
      ensures forall k :: k != key ==> Stored(k) == old(Stored(k))
      ensures (r, Stored(key)) == Incremented(old(Stored(key)), delta, ttl, now, stores)
      ensures Counted(old(Stored(key)), Stored(key), if delta == 0 then 1 else delta, ttl, now, stores, r)
    {
      hide FromChars, ToString, Wrap;
      WrapExact(Effective(delta));
      var d := if delta == 0 then 1 else delta;
      var base, writeTtl, createdNew := 0, ttl, true;
      var found := Lookup(Stored(key), now);
      r := StoreFailed;
      if found.Some? && (found.value.expiry == 0 || found.value.expiry > now) {
        var parsed := FromChars(found.value.value);
        if parsed == None {
          r := NotAnInteger;
        } else {
          base := parsed.value;
          writeTtl := if found.value.expiry == 0 then 0 else found.value.expiry - now;
          createdNew := false;
        }
      }
      if r == StoreFailed {
        var newValue := Wrap(base + d);
        if stores {
          cache := cache[key := Entry(ToString(newValue), Stamp(now, writeTtl))];
          r := Done(newValue, createdNew);
        }
      }
    }
  }

  /** What one call returns and leaves in the cache. A live item keeps its expiry. */
  function Incremented(
      e: Option<Entry>, delta: Int64, ttl: Time, now: Time, stores: bool): (IncrResult, Option<Entry>) {
    if e.Some? && Live(e.value, now) then
      match FromChars(e.value.value)
      case None => (NotAnInteger, e)
      case Some(base) =>
        var sum := Wrap(base + Effective(delta));
        if !stores then (StoreFailed, e)
        else (Done(sum, false), Some(Entry(ToString(sum), e.value.expiry)))
    else if !stores then (StoreFailed, e)
    else (Done(Effective(delta), true), Some(Entry(ToString(Effective(delta)), Stamp(now, ttl))))
  }

  // ---------- windows ----------

  /** The simple view: the running sum of a window, and when it ends (0 for never). */
  datatype Window = Window(sum: int, end: Time)

  datatype Call = Call(delta: Int64, ttl: Time, now: Time)

  predicate Within(w: Option<Window>, now: Time) {
    w.Some? && (w.value.end == 0 || now < w.value.end)
  }

  function Count(w: Option<Window>, c: Call): Window {
    if Within(w, c.now) then Window(w.value.sum + Effective(c.delta), w.value.end)
    else Window(Effective(c.delta), Stamp(c.now, c.ttl))
  }

  function Windows(w: Option<Window>, calls: seq<Call>): seq<(IncrResult, Window)>
    decreases |calls|
  {
    if calls == [] then []
    else
      var w1 := Count(w, calls[0]);
      [(Done(Wrap(w1.sum), !Within(w, calls[0].now)), w1)] + Windows(Some(w1), calls[1..])
  }

  /** The calls as the cache sees them. */
  function Results(e: Option<Entry>, calls: seq<Call>): seq<(IncrResult, Option<Entry>)>
    decreases |calls|
  {
    if calls == [] then []
    else
      var step := Incremented(e, calls[0].delta, calls[0].ttl, calls[0].now, true);
      [step] + Results(step.1, calls[1..])
  }

  function Shown(w: Option<Window>): Option<Entry> {
    if w == None then None else Some(Entry(ToString(Wrap(w.value.sum)), w.value.end))
  }

  lemma CountShown(w: Option<Window>, c: Call)
    ensures Incremented(Shown(w), c.delta, c.ttl, c.now, true) ==
            (Done(Wrap(Count(w, c).sum), !Within(w, c.now)), Shown(Some(Count(w, c))))
  {
    WrapExact(Effective(c.delta));
    if w.Some? {
      WrapAdd(w.value.sum, Effective(c.delta));
      ParsePrinted(Wrap(w.value.sum), []);
      assert ToString(Wrap(w.value.sum)) + [] == ToString(Wrap(w.value.sum));
    }
    hide Wrap, ToString, FromChars;
  }

  /** Calls on a cached decimal are calls on the running sum: same results, and the item always
      shows the window. */
  lemma {:induction false} CacheKeepsWindows(w: Option<Window>, calls: seq<Call>)
    ensures var rs, ws := Results(Shown(w), calls), Windows(w, calls);
            |rs| == |ws| == |calls| &&
            forall i :: 0 <= i < |calls| ==> rs[i] == (ws[i].0, Shown(Some(ws[i].1)))
    decreases |calls|
  {
    if calls != [] {
      hide Shown, Incremented, Count, Wrap, Within;
      CountShown(w, calls[0]);
      var w1 := Some(Count(w, calls[0]));
      CacheKeepsWindows(w1, calls[1..]);
      var rs, ws := Results(Shown(w), calls), Windows(w, calls);
      assert rs[1..] == Results(Shown(w1), calls[1..]) && ws[1..] == Windows(w1, calls[1..]);
      forall i | 0 <= i < |calls| ensures rs[i] == (ws[i].0, Shown(Some(ws[i].1))) {
        if i > 0 {
          assert rs[i] == rs[1..][i - 1] && ws[i] == ws[1..][i - 1];
        }
      }
    }
  }

  /** The deltas of the calls, added up. */
  function SumOf(calls: seq<Call>): int {
    if calls == [] then 0 else calls[0].delta + SumOf(calls[1..])
  }

  /** How many of the calls have a delta of zero; each of them counts one. */
  function Zeros(calls: seq<Call>): nat {
    if calls == [] then 0 else (if calls[0].delta == 0 then 1 else 0) + Zeros(calls[1..])
  }

  /** Calls before the end of the window that is open return its running sum and leave its end. */
  lemma {:induction false} InsideWindow(w: Window, calls: seq<Call>, i: nat)
    requires i < |calls|
    requires forall j :: 0 <= j <= i ==> w.end == 0 || calls[j].now < w.end
    ensures var ws := Windows(Some(w), calls);
            |ws| == |calls| && ws[i].0 == Done(Wrap(ws[i].1.sum), false) &&
            ws[i].1.sum == w.sum + SumOf(calls[..i + 1]) + Zeros(calls[..i + 1]) && ws[i].1.end == w.end
    decreases |calls|
  {
    hide Wrap;
    var w1 := Count(Some(w), calls[0]);
    WindowsLength(Some(w), calls);
    assert calls[..i + 1] == [calls[0]] + calls[1..][..i];
    if i > 0 {
      assert forall j :: 0 <= j <= i - 1 ==> calls[1..][j] == calls[j + 1];
      InsideWindow(w1, calls[1..], i - 1);
    } else {
      assert calls[1..][..0] == [];
    }
  }

  lemma {:induction false} WindowsLength(w: Option<Window>, calls: seq<Call>)
    ensures |Windows(w, calls)| == |calls|
    decreases |calls|
  {
    if calls != [] {
      WindowsLength(Some(Count(w, calls[0])), calls[1..]);
    }
  }

  /** The first call, and the first at or after the end of a window, opens a new one: it returns its
      own delta, or 1 for a delta of zero, stamps its own time to live, and says so. Every later call
      before the new end returns the sum of the deltas since then, modulo 2^64, with the end unchanged. */
  lemma {:induction false} FixedWindow(w: Option<Window>, calls: seq<Call>, i: nat, end: Time)
    requires i < |calls| && (w.Some? ==> 0 < w.value.end <= calls[0].now)
    requires end == if calls[0].ttl == 0 then 0 else (calls[0].now + calls[0].ttl) % 0x1_0000_0000
    requires forall j :: 0 < j <= i ==> end == 0 || calls[j].now < end
    ensures var rs, sum := Results(Shown(w), calls), SumOf(calls[..i + 1]) + Zeros(calls[..i + 1]);
            |rs| == |calls| && rs[i] == (Done(Wrap(sum), i == 0), Some(Entry(ToString(Wrap(sum)), end)))
  {
    hide ToString, Results, Incremented, Wrap;
    CacheKeepsWindows(w, calls);
    var w1 := Count(w, calls[0]);
    assert calls[..i + 1] == [calls[0]] + calls[1..][..i];
    if i > 0 {
      assert forall j :: 0 <= j <= i - 1 ==> calls[1..][j] == calls[j + 1];
      InsideWindow(w1, calls[1..], i - 1);
    } else {
      assert calls[1..][..0] == [];
    }
  }
}
