/**
 Reading and writing an unsigned integer stored in a byte buffer, in either
 byte order. The program reinterprets the first four payload bytes as a
 host-native 32-bit integer; which order that is stays a parameter here, and
 the lemmas show that whether the value is zero does not depend on it.
 */
module ByteOrder {
  import opened SmcTypes

  datatype Endian = Little | Big

  function Pow256(n: nat): (p: nat)
    ensures p > 0
  {
    if n == 0 then 1 else 256 * Pow256(n - 1)
  }

  predicate AllZero(bs: seq<byte>) {
    forall i :: 0 <= i < |bs| ==> bs[i] == 0
  }

  function Reverse(s: seq<byte>): (r: seq<byte>)
    ensures |r| == |s|
    ensures forall i :: 0 <= i < |s| ==> r[i] == s[|s| - 1 - i]
  {
    if |s| == 0 then [] else Reverse(s[1..]) + [s[0]]
  }

  /** Least significant byte first. */
  function DecodeLittle(bs: seq<byte>): (v: nat)
    ensures v < Pow256(|bs|)
  {
    if |bs| == 0 then 0 else bs[0] as nat + 256 * DecodeLittle(bs[1..])
  }

  /** The n low-order bytes of v, least significant first. */
  function EncodeLittle(v: nat, n: nat): (bs: seq<byte>)
    ensures |bs| == n
  {
    if n == 0 then [] else [(v % 256) as byte] + EncodeLittle(v / 256, n - 1)
  }

  function Decode(bs: seq<byte>, e: Endian): (v: nat)
    ensures v < Pow256(|bs|)
  {
    match e
    case Little => DecodeLittle(bs)
    case Big => DecodeLittle(Reverse(bs))
  }

  function Encode(v: nat, n: nat, e: Endian): (bs: seq<byte>)
    ensures |bs| == n
  {
    match e
    case Little => EncodeLittle(v, n)
    case Big => Reverse(EncodeLittle(v, n))
  }

  lemma ReverseReverse(s: seq<byte>)
    ensures Reverse(Reverse(s)) == s
  {
  }

  lemma {:induction false} DecodeEncodeLittle(v: nat, n: nat)
    requires v < Pow256(n)
    ensures DecodeLittle(EncodeLittle(v, n)) == v
  {
    if n > 0 {
      var bs := EncodeLittle(v, n);
      assert bs[1..] == EncodeLittle(v / 256, n - 1);
      DecodeEncodeLittle(v / 256, n - 1);
    }
  }

  lemma {:induction false} EncodeDecodeLittle(bs: seq<byte>)
    ensures EncodeLittle(DecodeLittle(bs), |bs|) == bs
  {
    if |bs| > 0 {
      var v := DecodeLittle(bs);
      var rest := DecodeLittle(bs[1..]);
      assert v == bs[0] as nat + 256 * rest;
      assert v % 256 == bs[0] as nat;
      assert v / 256 == rest;
      EncodeDecodeLittle(bs[1..]);
      assert bs == [bs[0]] + bs[1..];
    }
  }

  /** Writing a value that fits and reading it back in the same order gives the value. */
  lemma DecodeEncode(v: nat, n: nat, e: Endian)
    requires v < Pow256(n)
    ensures Decode(Encode(v, n, e), e) == v
  {
    DecodeEncodeLittle(v, n);
    ReverseReverse(EncodeLittle(v, n));
  }

  /** Reading bytes and writing the value back in the same order gives the bytes. */
  lemma EncodeDecode(bs: seq<byte>, e: Endian)
    ensures Encode(Decode(bs, e), |bs|, e) == bs
  {
    match e
    case Little => EncodeDecodeLittle(bs);
    case Big =>
      EncodeDecodeLittle(Reverse(bs));
      ReverseReverse(bs);
  }

  lemma {:induction false} DecodeLittleZero(bs: seq<byte>)
    ensures DecodeLittle(bs) == 0 <==> AllZero(bs)
  {
    if |bs| > 0 {
      DecodeLittleZero(bs[1..]);
      if AllZero(bs) {
        assert AllZero(bs[1..]) by {
          forall i | 0 <= i < |bs[1..]| ensures bs[1..][i] == 0 {
            assert bs[1..][i] == bs[i + 1];
          }
        }
      }
      if AllZero(bs[1..]) && bs[0] == 0 {
        forall i | 0 <= i < |bs| ensures bs[i] == 0 {
          if i > 0 { assert bs[i] == bs[1..][i - 1]; }
        }
      }
    }
  }

  /** A buffer reads as zero in either byte order exactly when all its bytes are zero. */
  lemma DecodeZero(bs: seq<byte>, e: Endian)
    ensures Decode(bs, e) == 0 <==> AllZero(bs)
  {
    DecodeLittleZero(bs);
    DecodeLittleZero(Reverse(bs));
    assert AllZero(Reverse(bs)) <==> AllZero(bs) by {
      if AllZero(Reverse(bs)) {
        forall i | 0 <= i < |bs| ensures bs[i] == 0 {
          assert bs[i] == Reverse(bs)[|bs| - 1 - i];
        }
      }
    }
  }

  /** Consequently the zero test gives the same answer under both byte orders. */
  lemma ZeroTestIgnoresOrder(bs: seq<byte>)
    ensures (Decode(bs, Little) == 0) == (Decode(bs, Big) == 0)
  {
    DecodeZero(bs, Little);
    DecodeZero(bs, Big);
  }

  lemma Pow256Four()
    ensures Pow256(4) == 0x1_0000_0000
  {
    assert Pow256(1) == 256;
    assert Pow256(2) == 0x1_0000;
    assert Pow256(3) == 0x100_0000;
  }
}
