/**
 The toggle arithmetic of toggle_smc_key: C's logical negation applied to the
 current value read from the controller, for the two supported sizes, and the
 write payload it produces.
 */
module ToggleValue {
  import opened SmcTypes
  import opened ByteOrder

  /** `!b` on one byte: 1 for zero, 0 for anything else. */
  function NotByte(b: byte): (r: byte)
    ensures r == 0 || r == 1
    ensures r == 1 <==> b == 0
  {
    if b == 0 then 1 else 0
  }

  /** `!w` on a 32-bit word held in four bytes in byte order e, written back
      as a word in the same order. */
  function NotWord(bs: seq<byte>, e: Endian): (r: seq<byte>)
    requires |bs| == 4
    ensures |r| == 4
    ensures Decode(r, e) == 0 || Decode(r, e) == 1
    ensures Decode(r, e) == 1 <==> AllZero(bs)
  {
    var w := if Decode(bs, e) == 0 then 1 else 0;
    Pow256Four();
    DecodeEncode(w, 4, e);
    DecodeZero(bs, e);
    Encode(w, 4, e)
  }

  /** The meaningful part of a payload for a key of the given size. */
  function Value(p: Payload, size: byte): seq<byte>
    requires size as nat <= PayloadCapacity
  {
    p[..size]
  }

  /** A key value counts as set when any of its meaningful bytes is nonzero. */
  predicate IsSet(p: Payload, size: byte)
    requires size as nat <= PayloadCapacity
  {
    !AllZero(Value(p, size))
  }

  /** The payload written back: a zeroed buffer whose first byte (size 1) or
      first four bytes (size 4) hold the negation of the value read. Any other
      size leaves the buffer zeroed. */
  function TogglePayload(size: byte, read: Payload, e: Endian): (p: Payload)
    ensures size == 1 ==> p[0] == NotByte(read[0])
    ensures size == 1 ==> forall i :: 1 <= i < PayloadCapacity ==> p[i] == 0
    ensures size == 4 ==> (Decode(p[..4], e) == 1 <==> AllZero(read[..4]))
    ensures size == 4 ==> (Decode(p[..4], e) == 0 || Decode(p[..4], e) == 1)
    ensures size == 4 ==> forall i :: 4 <= i < PayloadCapacity ==> p[i] == 0
    ensures size != 1 && size != 4 ==> AllZero(p)
  {
    if size == 1 then
      [NotByte(read[0])] + Zeros(PayloadCapacity - 1)
    else if size == 4 then
      var w := NotWord(read[..4], e);
      assert (w + Zeros(PayloadCapacity - 4))[..4] == w;
      w + Zeros(PayloadCapacity - 4)
    else
      EmptyPayload
  }

  /** For both supported sizes the written value is set exactly when the value
      read was not, whatever the byte order. */
  lemma ToggleFlips(size: byte, read: Payload, e: Endian)
    requires size == 1 || size == 4
    ensures IsSet(TogglePayload(size, read, e), size) <==> !IsSet(read, size)
  {
    var p := TogglePayload(size, read, e);
    if size == 4 {
      DecodeZero(p[..4], e);
    } else {
      assert Value(p, 1) == [p[0]];
      assert Value(read, 1) == [read[0]];
    }
  }

  /** Toggling twice restores whether the value is set, for any value. */
  lemma ToggleTwiceKeepsTruth(size: byte, read: Payload, e: Endian)
    requires size == 1 || size == 4
    ensures IsSet(TogglePayload(size, TogglePayload(size, read, e), e), size) <==> IsSet(read, size)
  {
    ToggleFlips(size, read, e);
    ToggleFlips(size, TogglePayload(size, read, e), e);
  }

  /** A canonical value (0 or 1, nothing beyond the meaningful bytes) comes back
      exactly after two toggles. */
  lemma ToggleTwiceCanonical(size: byte, read: Payload, e: Endian)
    requires size == 1 || size == 4
    requires Decode(Value(read, size), e) <= 1
    requires forall i :: size as nat <= i < PayloadCapacity ==> read[i] == 0
    ensures TogglePayload(size, TogglePayload(size, read, e), e) == read
  {
    var once := TogglePayload(size, read, e);
    var twice := TogglePayload(size, once, e);
    if size == 1 {
      assert Value(read, 1) == [read[0]];
      assert DecodeLittle([read[0]][1..]) == 0;
      assert Decode([read[0]], e) == read[0] as nat by {
        assert Reverse([read[0]]) == [read[0]];
      }
      assert twice[0] == read[0];
      assert twice == read;
    } else {
      var v := Value(read, 4);
      var d := Decode(v, e);
      DecodeZero(v, e);
      DecodeZero(once[..4], e);
      Pow256Four();
      assert Decode(twice[..4], e) == d;
      EncodeDecode(twice[..4], e);
      EncodeDecode(v, e);
      assert twice[..4] == v;
      assert twice == twice[..4] + twice[4..];
      assert read == v + read[4..];
      assert twice[4..] == read[4..];
    }
  }
}
