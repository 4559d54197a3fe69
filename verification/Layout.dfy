/** How an item is laid out in its slot: a packed word with the sizes of value and key, the length
    of the key again if it is large, the key, and the value. */
module Layout {
  import opened Basics

  type Byte = b: int | 0 <= b < 256

  const SMALL_KEY_MAX := 255
  const VALUE_MAX := 0xFF_FFFF
  const KEY_MAX := VALUE_MAX
  const UINT32_MAX := 0xFFFF_FFFF

  // ---------- numbers as bytes ----------

  /** The `k` low bytes of a number, lowest first. */
  function Bytes(n: nat, k: nat): (s: seq<Byte>)
    ensures |s| == k
  {
    if k == 0 then [] else [n % 256] + Bytes(n / 256, k - 1)
  }

  function Number(s: seq<Byte>): nat {
    if s == [] then 0 else s[0] + 256 * Number(s[1..])
  }

  function Bound(k: nat): (b: nat)
    ensures b > 0
  {
    if k == 0 then 1 else 256 * Bound(k - 1)
  }

  /** The lowest byte comes first: byte `i` counts 256^i. */
  lemma {:induction false} ByteAt(n: nat, k: nat, i: nat)
    requires i < k
    ensures Bytes(n, k)[i] == n / Bound(i) % 256
    decreases k
  {
    if i > 0 {
      ByteAt(n / 256, k - 1, i - 1);
      DivideTwice(n, 256, Bound(i - 1));
    }
  }

  lemma {:induction false} NumberBytes(n: nat, k: nat)
    requires n < Bound(k)
    ensures Number(Bytes(n, k)) == n
  {
    if k > 0 {
      NumberBytes(n / 256, k - 1);
    }
  }

  // ---------- sizes ----------

  function ExtraBytes(keySize: nat): nat {
    if keySize <= SMALL_KEY_MAX then 0 else 4
  }

  /** The slot an item needs, where `header` is the size of the item header including the packed
      word; 0 if it does not fit into 32 bits. */
  function RequiredSize(header: nat, keySize: nat, size: nat): nat {
    var required := size + keySize + header + ExtraBytes(keySize);
    if required > UINT32_MAX then 0 else required
  }

  predicate ValidKey(key: seq<Byte>) {
    0 < |key| <= KEY_MAX
  }

  // ---------- reading ----------

  predicate IsSmall(m: seq<Byte>)
    requires |m| >= 4
  {
    m[3] != 0
  }

  /** Long enough for the sizes it begins with. */
  predicate HasSizes(m: seq<Byte>) {
    |m| >= 4 && (m[3] == 0 ==> |m| >= 8)
  }

  function KeySize(m: seq<Byte>): nat
    requires HasSizes(m)
  {
    if IsSmall(m) then m[3] else Number(m[4..8])
  }

  function KeyStart(m: seq<Byte>): nat
    requires HasSizes(m)
  {
    if IsSmall(m) then 4 else 8
  }

  function ValueStart(m: seq<Byte>): nat
    requires HasSizes(m)
  {
    KeyStart(m) + KeySize(m)
  }

  function GetSize(m: seq<Byte>): nat
    requires HasSizes(m)
  {
    Number(m[..3])
  }

  predicate HasKey(m: seq<Byte>) {
    HasSizes(m) && ValueStart(m) <= |m|
  }

  function GetKey(m: seq<Byte>): seq<Byte>
    requires HasKey(m)
  {
    var n := if KeySize(m) <= KEY_MAX then KeySize(m) else KEY_MAX;
    m[KeyStart(m)..KeyStart(m) + n]
  }

  // ---------- writing ----------

  /** The packed word, with the length of the key behind it if the key is large. */
  function Sizes(keySize: nat, size: nat): (s: seq<Byte>)
    ensures |s| == 4 + ExtraBytes(keySize)
  {
    Bytes(size, 3) + if keySize <= SMALL_KEY_MAX then [keySize] else [0] + Bytes(keySize, 4)
  }

  /** The sizes and the key of an allocation. */
  function Packed(key: seq<Byte>, size: nat): (s: seq<Byte>)
    ensures |s| == 4 + ExtraBytes(|key|) + |key|
  {
    Sizes(|key|, size) + key
  }

  /** The first four bytes are one word, with the size of the value in its low 24 bits and the size of
      a small key in the high 8, which are 0 for a large one; its size is the next word. Then comes
      the key. */
  lemma PackedWord(key: seq<Byte>, size: nat)
    requires ValidKey(key) && size <= VALUE_MAX
    ensures var m := Packed(key, size);
            && Number(m[..4]) == (if |key| <= 255 then |key| else 0) * 0x100_0000 + size
            && (|key| > 255 ==> |m| >= 8 && Number(m[4..8]) == |key|)
            && m[|m| - |key|..] == key && |m| == |key| + if |key| <= 255 then 4 else 8
  {
    var m := Packed(key, size);
    var top: Byte := if |key| <= 255 then |key| else 0;
    NumberBytes(size, 3);
    assert Bound(3) == 0x100_0000 && Bound(4) == 0x1_0000_0000;
    assert m[..4] == Bytes(size, 3) + [top];
    NumberAppend(Bytes(size, 3), top);
    if |key| > 255 {
      NumberBytes(|key|, 4);
      assert m[4..8] == Bytes(|key|, 4);
    }
  }

  lemma {:induction false} NumberAppend(s: seq<Byte>, b: Byte)
    ensures Number(s + [b]) == Number(s) + b * Bound(|s|)
  {
    if s == [] {
      assert [b][1..] == [] && s + [b] == [b];
    } else {
      NumberAppend(s[1..], b);
      assert (s + [b])[1..] == s[1..] + [b];
      assert 256 * (b * Bound(|s| - 1)) == b * (256 * Bound(|s| - 1));
    }
  }

  /** What is packed is read back: the key and the size, with the value right behind the key and up
      to the end. */
  lemma ReadBack(key: seq<Byte>, value: seq<Byte>)
    requires ValidKey(key) && |value| <= VALUE_MAX
    ensures var m := Packed(key, |value|) + value;
            && HasKey(m) && GetKey(m) == key && GetSize(m) == |value|
            && ValueStart(m) + GetSize(m) == |m| && m[ValueStart(m)..] == value
  {
    var m := Packed(key, |value|) + value;
    NumberBytes(|value|, 3);
    assert Bound(3) == 0x100_0000 && Bound(4) == 0x1_0000_0000;
    assert m[..3] == Bytes(|value|, 3);
    if |key| > SMALL_KEY_MAX {
      NumberBytes(|key|, 4);
      assert m[4..8] == Bytes(|key|, 4);
    }
    assert m[KeyStart(m)..KeyStart(m) + |key|] == key;
  }

  /** The slot is used exactly: header, key and value, and nothing else. */
  lemma ExactFit(header: nat, key: seq<Byte>, value: seq<Byte>)
    requires ValidKey(key) && |value| <= VALUE_MAX && 4 <= header <= 1024
    ensures RequiredSize(header, |key|, |value|) == (header - 4) + |Packed(key, |value|) + value| > 0
  {
  }

  /** Copies bytes into memory. */
  method Copy(mem: array<Byte>, at: nat, bytes: seq<Byte>)
    requires at + |bytes| <= mem.Length
    modifies mem
    ensures mem[..] == old(mem[..at]) + bytes + old(mem[at + |bytes|..])
  {
    for i := 0 to |bytes|
      invariant mem[..] == old(mem[..at]) + bytes[..i] + old(mem[at + i..])
    {
      mem[at + i] := bytes[i];
      assert bytes[..i + 1] == bytes[..i] + [bytes[i]];
    }
  }

  /** Constructs an allocation in memory that has exactly the room for it. Refuses invalid keys and
      sizes, and then writes nothing. */
  method Construct(mem: array<Byte>, key: seq<Byte>, size: nat) returns (ok: bool)
    requires ValidKey(key) && size <= VALUE_MAX ==> mem.Length == 4 + ExtraBytes(|key|) + |key| + size
    modifies mem
    ensures ok <==> ValidKey(key) && size <= VALUE_MAX
    ensures mem[..] == if ok then Packed(key, size) + old(mem[mem.Length - size..]) else old(mem[..])
  {
    ok := size <= VALUE_MAX && 0 < |key| <= KEY_MAX;
    if ok {
      hide Sizes;
      var sizes := Sizes(|key|, size);
      Copy(mem, 0, sizes);
      Copy(mem, |sizes|, key);
    }
  }

  /** Replaces the key by one of the same size; the value stays. */
  method ChangeKey(mem: array<Byte>, key: seq<Byte>, ghost prior: seq<Byte>, ghost value: seq<Byte>) returns (ok: bool)
    requires ValidKey(prior) && |value| <= VALUE_MAX && mem[..] == Packed(prior, |value|) + value
    modifies mem
    ensures ok <==> |key| == |prior|
    ensures mem[..] == if ok then Packed(key, |value|) + value else old(mem[..])
  {
    ReadBack(prior, value);
    ghost var before := mem[..];
    var small := mem[3] != 0;
    var keySize := if small then mem[3] else Number(mem[4..8]);
    assert before[3] == mem[3] && (!small ==> before[4..8] == mem[4..8]);
    ok := |key| == keySize;
    if ok {
      Copy(mem, if small then 4 else 8, key);
      assert mem[..] == Packed(key, |value|) + value;
    }
  }

  // ---------- chained items ----------

  /** A chained item's key is its parent, a pointer of `p` bytes, and its value begins with the hook
      to the next item, of the same size; so its own size is that much less. */
  function ChainedRequiredSize(header: nat, p: nat, size: nat): nat {
    var required := size + p + header + p;
    if required > UINT32_MAX then 0 else required
  }

  function ChainedMemory(m: seq<Byte>, p: nat): nat
    requires HasSizes(m)
  {
    ValueStart(m) + p
  }

  function ChainedSize(m: seq<Byte>, p: nat): int
    requires HasSizes(m)
  {
    GetSize(m) - p
  }

  lemma ChainedReadBack(header: nat, parent: seq<Byte>, hook: seq<Byte>, value: seq<Byte>)
    requires 0 < |parent| <= SMALL_KEY_MAX && |hook| == |parent| && |hook| + |value| <= VALUE_MAX && 4 <= header <= 1024
    ensures var m := Packed(parent, |hook + value|) + (hook + value);
            && HasKey(m) && GetKey(m) == parent
            && ChainedSize(m, |parent|) == |value|
            && ChainedMemory(m, |parent|) + |value| == |m| && m[ChainedMemory(m, |parent|)..] == value
            && ChainedRequiredSize(header, |parent|, |value|) == (header - 4) + |m|
  {
    var m := Packed(parent, |hook + value|) + (hook + value);
    ReadBack(parent, hook + value);
    assert m[ChainedMemory(m, |parent|)..] == m[ValueStart(m)..][|hook|..] == value;
  }
}
