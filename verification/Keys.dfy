/** The byte keys of the inbox buckets (store.go, `receiptKey` and `sequenceKey`). */
module Keys {
  import opened Ordering

  type Key = string

  newtype byte = x: int | 0 <= x < 256

  const NUL: char := 0 as char

  const UINT64_COUNT: nat := 0x1_0000_0000_0000_0000

  predicate NulFree(id: string) {
    NUL !in id
  }

  /** The key of a receipt, batch or quarantine record: account, NUL, batch. */
  function ReceiptKey(accountId: string, batchId: string): Key {
    accountId + [NUL] + batchId
  }

  /** Two records share a key exactly when they share both ids. */
  lemma {:induction false} ReceiptKeyInjective(a: string, b: string, a': string, b': string)
    requires NulFree(a) && NulFree(a')
    ensures ReceiptKey(a, b) == ReceiptKey(a', b') <==> a == a' && b == b'
  {
    var k, k' := ReceiptKey(a, b), ReceiptKey(a', b');
    if k == k' {
      assert k[|a|] == NUL && k'[|a'|] == NUL;
      if |a| < |a'| {
        assert false;
      } else if |a'| < |a| {
        assert false;
      }
      assert a == k[..|a|] && a' == k'[..|a'|];
      assert b == k[|a| + 1..] && b' == k'[|a'| + 1..];
    }
  }

  function Pow256(width: nat): nat {
    if width == 0 then 1 else 256 * Pow256(width - 1)
  }

  /** `binary.BigEndian` with the given number of bytes; higher bits are dropped. */
  function BigEndian(n: nat, width: nat): (bytes: seq<byte>)
    ensures |bytes| == width
  {
    if width == 0 then [] else BigEndian(n / 256, width - 1) + [(n % 256) as byte]
  }

  /** The FIFO key of a sequence number. */
  function SequenceKey(sequence: nat): seq<byte> {
    BigEndian(sequence, 8)
  }

  /** Bytewise comparison, the order of a bbolt cursor. */
  predicate BytesLess(a: seq<byte>, b: seq<byte>) {
    if b == [] then false
    else if a == [] then true
    else if a[0] != b[0] then a[0] < b[0]
    else BytesLess(a[1..], b[1..])
  }

  lemma {:induction false} BytesLessLast(a: seq<byte>, b: seq<byte>, x: byte, y: byte)
    requires |a| == |b|
    ensures BytesLess(a + [x], b + [y]) <==> BytesLess(a, b) || (a == b && x < y)
  {
    if a == [] {
      assert a + [x] == [x] && b + [y] == [y];
    } else {
      BytesLessLast(a[1..], b[1..], x, y);
      assert (a + [x])[1..] == a[1..] + [x] && (b + [y])[1..] == b[1..] + [y];
      assert a == [a[0]] + a[1..] && b == [b[0]] + b[1..];
    }
  }

  /** Big-endian keys compare as their numbers do, and are equal only for equal numbers. */
  lemma {:induction false} BigEndianOrder(m: nat, n: nat, width: nat)
    requires m < Pow256(width) && n < Pow256(width)
    ensures BytesLess(BigEndian(m, width), BigEndian(n, width)) <==> m < n
    ensures BigEndian(m, width) == BigEndian(n, width) <==> m == n
  {
    if width > 0 {
      BigEndianOrder(m / 256, n / 256, width - 1);
      var a, b := BigEndian(m / 256, width - 1), BigEndian(n / 256, width - 1);
      var x, y := (m % 256) as byte, (n % 256) as byte;
      BytesLessLast(a, b, x, y);
      if a + [x] == b + [y] {
        assert a == (a + [x])[..width - 1] && b == (b + [y])[..width - 1];
        assert (a + [x])[width - 1] == x && (b + [y])[width - 1] == y;
      }
    }
  }

  lemma Pow256Of8()
    ensures Pow256(8) == UINT64_COUNT
  {
    assert Pow256(2) == 0x1_0000;
    assert Pow256(4) == 0x1_0000_0000;
    assert Pow256(6) == 0x1_0000_0000_0000;
  }

  lemma SequenceKeyOrder(m: nat, n: nat)
    requires m < UINT64_COUNT && n < UINT64_COUNT
    ensures BytesLess(SequenceKey(m), SequenceKey(n)) <==> m < n
    ensures SequenceKey(m) == SequenceKey(n) <==> m == n
  {
    Pow256Of8();
    BigEndianOrder(m, n, 8);
  }

  /** The keys a cursor over the FIFO bucket returns, as the numbers they encode. */
  ghost function KeysInOrder(s: set<nat>): seq<seq<byte>> {
    var a := Ordered(s);
    seq(|a|, i requires 0 <= i < |a| => SequenceKey(a[i]))
  }

  /** A byte-ordered cursor over the FIFO bucket visits the records in numeric order. */
  lemma CursorVisitsInSequenceOrder(s: set<nat>)
    requires forall n :: n in s ==> n < UINT64_COUNT
    ensures var keys := KeysInOrder(s);
      && (forall i, j :: 0 <= i < j < |keys| ==> BytesLess(keys[i], keys[j]))
      && (forall n :: n in s ==> SequenceKey(n) in keys)
  {
    var a := Ordered(s);
    var keys := KeysInOrder(s);
    OrderedEnumerates(s);
    forall i, j | 0 <= i < j < |keys| ensures BytesLess(keys[i], keys[j]) {
      SequenceKeyOrder(a[i], a[j]);
    }
    forall n | n in s ensures SequenceKey(n) in keys {
      var i :| 0 <= i < |a| && a[i] == n;
      assert keys[i] == SequenceKey(n);
    }
  }
}
