/**
 Byte strings, fixed-width big-endian numbers, and the byte-by-byte order that
 SQLite applies to BLOB columns.
 */
module Bytes {
  import opened MachineInts

  type Blob = seq<byte>

  /** The value 256^k, the number of k-byte numbers. */
  function Radix(k: nat): (r: nat)
    ensures 0 < r
  {
    if k == 0 then 1 else 256 * Radix(k - 1)
  }

  lemma Radix16()
    ensures Radix(16) == U128_LIMIT
  {
    assert Radix(4) == 0x1_0000_0000;
    assert Radix(8) == 0x1_0000_0000_0000_0000;
    assert Radix(12) == 0x1_0000_0000_0000_0000_0000_0000;
  }

  /** The k low-order bytes of n, most significant byte first. */
  function Encode(n: nat, k: nat): (bs: Blob)
    ensures |bs| == k
  {
    if k == 0 then [] else Encode(n / 256, k - 1) + [(n % 256) as byte]
  }

  /** The number whose big-endian representation is bs. */
  function Decode(bs: Blob): (n: nat)
    decreases |bs|
  {
    if bs == [] then 0
    else 256 * Decode(bs[..|bs| - 1]) + bs[|bs| - 1] as int
  }

  lemma {:induction false} DecodeEncode(n: nat, k: nat)
    requires n < Radix(k)
    ensures Decode(Encode(n, k)) == n
  {
    if k > 0 {
      DecodeEncode(n / 256, k - 1);
      var bs := Encode(n, k);
      assert bs[..|bs| - 1] == Encode(n / 256, k - 1);
    }
  }

  lemma {:induction false} EncodeDecode(bs: Blob)
    ensures Decode(bs) < Radix(|bs|)
    ensures Encode(Decode(bs), |bs|) == bs
    decreases |bs|
  {
    if bs != [] {
      var front, last := bs[..|bs| - 1], bs[|bs| - 1];
      EncodeDecode(front);
      assert Decode(bs) / 256 == Decode(front);
      assert Decode(bs) % 256 == last as int;
      assert bs == front + [last];
    }
  }

  /** memcmp on the common length, then the shorter BLOB first. */
  predicate BlobLess(a: Blob, b: Blob) {
    if b == [] then false
    else if a == [] then true
    else a[0] < b[0] || (a[0] == b[0] && BlobLess(a[1..], b[1..]))
  }

  /** On BLOBs of one length the order can also be decided from the last byte backwards. */
  lemma {:induction false} BlobLessFromTheBack(a: Blob, b: Blob)
    requires |a| == |b| > 0
    ensures BlobLess(a, b) <==>
            BlobLess(a[..|a| - 1], b[..|b| - 1]) ||
            (a[..|a| - 1] == b[..|b| - 1] && a[|a| - 1] < b[|b| - 1])
  {
    if |a| > 1 {
      BlobLessFromTheBack(a[1..], b[1..]);
      var n := |a| - 1;
      assert a[1..][..n - 1] == a[..n][1..];
      assert b[1..][..n - 1] == b[..n][1..];
      assert a[..n] == [a[0]] + a[..n][1..];
      assert b[..n] == [b[0]] + b[..n][1..];
    }
  }

  /** Comparing equally long BLOBs byte by byte compares the numbers they encode. */
  lemma {:induction false} BlobOrderIsNumeric(a: Blob, b: Blob)
    requires |a| == |b|
    ensures BlobLess(a, b) <==> Decode(a) < Decode(b)
    decreases |a|
  {
    if a != [] {
      var n := |a| - 1;
      BlobLessFromTheBack(a, b);
      BlobOrderIsNumeric(a[..n], b[..n]);
      EncodeDecode(a[..n]);
      EncodeDecode(b[..n]);
    }
  }

  /** Equally long BLOBs that encode the same number are the same BLOB. */
  lemma DecodeInjective(a: Blob, b: Blob)
    requires |a| == |b| && Decode(a) == Decode(b)
    ensures a == b
  {
    EncodeDecode(a);
    EncodeDecode(b);
  }
}
