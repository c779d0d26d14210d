/** Octets, concatenation, and the big-endian integers of the IPC protocol. */
module Bytes {

  datatype Option<+T> = None | Some(value: T)

  datatype Result<+T> = Success(value: T) | Failure(error: string)

  type byte = x: int | 0 <= x < 256
  type bytes = seq<byte>

  type word = x: int | 0 <= x < 0x1_0000   // 16 bits

  const TWO_32: int := 0x1_0000_0000

  function Concat<T>(parts: seq<seq<T>>): seq<T> {
    if parts == [] then [] else parts[0] + Concat(parts[1..])
  }

  lemma {:induction false} ConcatAppend<T>(a: seq<seq<T>>, b: seq<seq<T>>)
    ensures Concat(a + b) == Concat(a) + Concat(b)
  {
    if a == [] {
      assert a + b == b;
    } else {
      assert (a + b)[1..] == a[1..] + b;
      ConcatAppend(a[1..], b);
    }
  }

  lemma ConcatSnoc<T>(a: seq<seq<T>>, x: seq<T>)
    ensures Concat(a + [x]) == Concat(a) + x
  {
    ConcatAppend(a, [x]);
    assert Concat([x]) == x + Concat<T>([]);
  }

  lemma Halves<T>(a: seq<T>, b: seq<T>)
    ensures (a + b)[..|a|] == a && (a + b)[|a|..] == b && (a + b)[|a|..|a| + |b|] == b
  {
  }

  lemma Regrouped<T>(a: seq<T>, b: seq<T>, c: seq<T>)
    ensures a + b + c == a + (b + c)
  {
  }

  // The `width` low-order octets of `x`, most significant first (append_u16, append_u32, append_u64).
  function BigEndian(x: nat, width: nat): (r: bytes)
    ensures |r| == width
  {
    if width == 0 then [] else BigEndian(x / 256, width - 1) + [x % 256]
  }

  // The number spelled by some octets (read_u16, read_u32, read_u64).
  function Number(s: bytes): nat {
    if s == [] then 0 else 256 * Number(s[..|s| - 1]) + s[|s| - 1]
  }

  predicate Fits(x: nat, width: nat) {
    if width == 0 then x == 0 else Fits(x / 256, width - 1)
  }

  lemma {:induction false} NumberOfBigEndian(x: nat, width: nat)
    requires Fits(x, width)
    ensures Number(BigEndian(x, width)) == x
  {
    if width != 0 {
      NumberOfBigEndian(x / 256, width - 1);
      assert BigEndian(x, width)[..width - 1] == BigEndian(x / 256, width - 1);
    }
  }

  lemma Fits16(x: nat)
    ensures Fits(x, 2) <==> x < 0x1_0000
  {
    assert Fits(x, 2) == Fits(x / 256, 1) == Fits(x / 256 / 256, 0);
  }

  lemma Fits32(x: nat)
    ensures Fits(x, 4) <==> x < TWO_32
  {
    Fits16(x / 0x1_0000);
    assert Fits(x, 4) == Fits(x / 256, 3) == Fits(x / 256 / 256, 2);
    assert x / 256 / 256 == x / 0x1_0000;
  }

  // Most significant octet first.
  lemma Octets16(x: nat)
    ensures BigEndian(x, 2) == [x / 256 % 256, x % 256]
  {
    assert BigEndian(x, 2) == BigEndian(x / 256, 1) + [x % 256];
    assert BigEndian(x / 256, 1) == BigEndian(x / 256 / 256, 0) + [x / 256 % 256];
  }

  lemma Octets32(x: nat)
    ensures BigEndian(x, 4) == [x / 0x100_0000 % 256, x / 0x1_0000 % 256, x / 256 % 256, x % 256]
  {
    Octets16(x / 0x1_0000);
    assert BigEndian(x, 4) == BigEndian(x / 256, 3) + [x % 256];
    assert BigEndian(x / 256, 3) == BigEndian(x / 0x1_0000, 2) + [x / 256 % 256];
  }

  lemma NumberOf32(x: nat)
    requires x < TWO_32
    ensures Number(BigEndian(x, 4)) == x
  {
    Fits32(x);
    NumberOfBigEndian(x, 4);
  }

  lemma Fits64(x: nat)
    ensures Fits(x, 8) <==> x < TWO_32 * TWO_32
  {
    Fits32(x / TWO_32);
    assert Fits(x, 8) == Fits(x / 256, 7) == Fits(x / 256 / 256, 6) == Fits(x / 256 / 256 / 256, 5)
        == Fits(x / 256 / 256 / 256 / 256, 4);
    assert x / 256 / 256 / 256 / 256 == x / TWO_32;
  }
}
