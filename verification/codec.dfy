/** Fixed-width big-endian numbers, and the timestamp that prefixes every stored
    value (dbnode/coordinator.go). */
module Codec {
  import opened Packet
  import opened Wrappers
  import opened StagedStore
  import opened Node

  // ---------- big-endian numbers ----------

  function Limit(width: nat): nat { if width == 0 then 1 else 256 * Limit(width - 1) }

  function BigEndian(x: nat, width: nat): (b: seq<Byte>)
    ensures |b| == width
  {
    if width == 0 then [] else BigEndian(x / 256, width - 1) + [(x % 256) as Byte]
  }

  function Number(b: seq<Byte>): nat {
    if b == [] then 0 else 256 * Number(b[..|b| - 1]) + b[|b| - 1] as nat
  }

  lemma {:induction false} NumberRoundTrip(x: nat, width: nat)
    requires x < Limit(width)
    ensures Number(BigEndian(x, width)) == x
  {
    if width > 0 {
      NumberRoundTrip(x / 256, width - 1);
      assert BigEndian(x, width)[..width - 1] == BigEndian(x / 256, width - 1);
    }
  }

  lemma {:induction false} BytesRoundTrip(b: seq<Byte>)
    ensures Number(b) < Limit(|b|) && BigEndian(Number(b), |b|) == b
  {
    if b != [] {
      var rest := b[..|b| - 1];
      BytesRoundTrip(rest);
      assert Number(b) / 256 == Number(rest) && Number(b) % 256 == b[|b| - 1] as nat;
      assert b == rest + [b[|b| - 1]];
    }
  }

  /** Writes x into the first `width` bytes of a buffer, last byte first. */
  method PutNumber(buffer: array<Byte>, offset: nat, x: nat, width: nat)
    requires offset + width <= buffer.Length
    modifies buffer
    ensures buffer[offset..offset + width] == BigEndian(x, width)
    ensures forall k :: 0 <= k < buffer.Length && !(offset <= k < offset + width) ==> buffer[k] == old(buffer[k])
  {
    var rest, i := x, width;
    ghost var digits: seq<Byte> := [];
    assert BigEndian(x, width) == BigEndian(rest, i) + digits;
    while i > 0
      invariant 0 <= i <= width && |digits| == width - i
      invariant forall k :: 0 <= k < buffer.Length && !(offset + i <= k < offset + width) ==>
          buffer[k] == old(buffer[k])
      invariant forall k :: offset + i <= k < offset + width ==> buffer[k] == digits[k - offset - i]
      invariant BigEndian(x, width) == BigEndian(rest, i) + digits
    {
      DigitMoves(rest, i, digits);
      hide BigEndian;
      i := i - 1;
      var digit := (rest % 256) as Byte;
      buffer[offset + i] := digit;
      digits := [digit] + digits;
      rest := rest / 256;
    }
    assert BigEndian(rest, 0) + digits == digits;
    assert buffer[offset..offset + width] == digits;
  }

  lemma DigitMoves(x: nat, width: nat, digits: seq<Byte>)
    requires width > 0
    ensures BigEndian(x, width) + digits == BigEndian(x / 256, width - 1) + ([(x % 256) as Byte] + digits)
  {}

  method Copy(buffer: array<Byte>, offset: nat, b: seq<Byte>)
    requires offset + |b| <= buffer.Length
    modifies buffer
    ensures buffer[offset..offset + |b|] == b
    ensures forall k :: 0 <= k < buffer.Length && !(offset <= k < offset + |b|) ==> buffer[k] == old(buffer[k])
  {
    for i := 0 to |b|
      invariant forall k :: offset <= k < offset + i ==> buffer[k] == b[k - offset]
      invariant forall k :: 0 <= k < buffer.Length && !(offset <= k < offset + i) ==> buffer[k] == old(buffer[k])
    {
      buffer[offset + i] := b[i];
    }
  }

  // ---------- timestamped values ----------

  const STAMP_BYTES: nat := 8

  function Encode(v: Stamped): seq<Byte> { BigEndian(v.timestamp, STAMP_BYTES) + v.value }

  /** Nothing at all stands for an absent value; fewer than eight bytes are a fatal error. */
  function Decode(b: seq<Byte>): Option<Stamped> {
    if |b| == 0 then Some(ABSENT)
    else if |b| < STAMP_BYTES then None
    else Some(Stamped(Number(b[..STAMP_BYTES]), b[STAMP_BYTES..]))
  }

  lemma StampLimit()
    ensures Limit(STAMP_BYTES) == TIMESTAMPS
  {
    assert Limit(4) == 256 * Limit(3) == 0x1_0000_0000;
    assert Limit(8) == 256 * Limit(7) && Limit(7) == 256 * Limit(6) && Limit(6) == 256 * Limit(5) &&
        Limit(5) == 256 * Limit(4);
  }

  lemma ZeroBytes()
    ensures Decode([0, 0, 0, 0, 0, 0, 0, 0]) == Some(Stamped(0, []))
  {
    var zeros: seq<Byte> := [0, 0, 0, 0, 0, 0, 0, 0];
    var x := BigEndian(0, STAMP_BYTES);
    StampLimit();
    NumberRoundTrip(0, STAMP_BYTES);
    forall i | 0 <= i < |zeros| ensures x[i] == zeros[i] { ZeroDigits(STAMP_BYTES, i); }
    assert x == zeros && zeros[..STAMP_BYTES] == zeros && zeros[STAMP_BYTES..] == [];
  }

  lemma {:induction false} ZeroDigits(width: nat, i: nat)
    requires i < width
    ensures BigEndian(0, width)[i] == 0
  {
    if i < width - 1 { ZeroDigits(width - 1, i); }
  }

  /** Every value with a 64-bit timestamp survives encoding. */
  lemma DecodeEncode(v: Stamped)
    requires v.timestamp < TIMESTAMPS
    ensures Decode(Encode(v)) == Some(v)
  {
    StampLimit();
    NumberRoundTrip(v.timestamp, STAMP_BYTES);
    assert Encode(v)[..STAMP_BYTES] == BigEndian(v.timestamp, STAMP_BYTES);
    assert Encode(v)[STAMP_BYTES..] == v.value;
  }

  /** Decoding fails only on one to seven bytes, and otherwise loses nothing,
      except that no bytes mean the same as eight zero bytes: timestamp 0 and no value. */
  lemma EncodeDecode(b: seq<Byte>)
    ensures Decode(b).None? <==> 0 < |b| < STAMP_BYTES
    ensures Decode([]) == Decode([0, 0, 0, 0, 0, 0, 0, 0]) == Some(Stamped(0, []))
    ensures Decode(b).Some? ==> Decode(b).value.timestamp < TIMESTAMPS
    ensures Decode(b).Some? && b != [] ==> Encode(Decode(b).value) == b
  {
    StampLimit();
    if |b| >= STAMP_BYTES { BytesRoundTrip(b[..STAMP_BYTES]); }
    ZeroBytes();
  }

  lemma EncodeInjective(v: Stamped, u: Stamped)
    requires v.timestamp < TIMESTAMPS && u.timestamp < TIMESTAMPS && Encode(v) == Encode(u)
    ensures v == u
  {
    DecodeEncode(v);
    DecodeEncode(u);
  }

  method EncodeTimestampVal(timestamp: nat, value: Value) returns (encoded: array<Byte>)
    ensures fresh(encoded) && encoded[..] == Encode(Stamped(timestamp, value))
  {
    encoded := new Byte[|value| + STAMP_BYTES];
    PutNumber(encoded, 0, timestamp, STAMP_BYTES);
    Copy(encoded, STAMP_BYTES, value);
    assert encoded[..] == encoded[0..STAMP_BYTES] + encoded[STAMP_BYTES..STAMP_BYTES + |value|];
  }

  method DecodeTimestampVal(encoded: seq<Byte>) returns (fatal: bool, timestamp: nat, value: Value)
    ensures fatal <==> 0 < |encoded| < STAMP_BYTES
    ensures !fatal ==> Decode(encoded) == Some(Stamped(timestamp, value))
    ensures encoded == [] ==> timestamp == 0 && value == []
  {
    if |encoded| == 0 { return false, 0, []; }
    if |encoded| < STAMP_BYTES { return true, 0, []; }
    var x := 0;
    for i := 0 to STAMP_BYTES
      invariant x == Number(encoded[..i])
    {
      x := 256 * x + encoded[i] as nat;
      assert encoded[..i + 1][..i] == encoded[..i];
    }
    return false, x, encoded[STAMP_BYTES..];
  }

  // ---------- a store of encoded values behaves as one of values ----------

  function Encoded(s: Store<Key, Stamped>): Store<Key, seq<Byte>> {
    Store(map k | k in s.committed :: Encode(s.committed[k]),
          map id | id in s.staged :: (s.staged[id].0, Encode(s.staged[id].1)),
          s.txid)
  }

  /** What the protocol reads and writes through the encoding is what it would read and write without it. */
  lemma PutCommutes(s: Store<Key, Stamped>, key: Key, v: Stamped)
    ensures Put(Encoded(s), key, Encode(v)) == Encoded(Put(s, key, v))
  {
    hide Encode;
    assert Put(Encoded(s), key, Encode(v)).staged == Encoded(Put(s, key, v)).staged;
  }

  lemma CommitCommutes(s: Store<Key, Stamped>, key: Key, id: int)
    ensures CanCommit(Encoded(s), key, id) == CanCommit(s, key, id)
    ensures Commit(Encoded(s), key, id) == Encoded(Commit(s, key, id))
    ensures Rollback(Encoded(s), id) == Encoded(Rollback(s, id))
  {
    hide Encode;
    assert Commit(Encoded(s), key, id).committed == Encoded(Commit(s, key, id)).committed;
    assert Commit(Encoded(s), key, id).staged == Encoded(Commit(s, key, id)).staged;
    assert Rollback(Encoded(s), id).staged == Encoded(Rollback(s, id)).staged;
  }

  lemma EncodingCommutes(s: Store<Key, Stamped>, key: Key, v: Stamped, id: int)
    ensures Put(Encoded(s), key, Encode(v)) == Encoded(Put(s, key, v))
    ensures CanCommit(Encoded(s), key, id) == CanCommit(s, key, id)
    ensures Commit(Encoded(s), key, id) == Encoded(Commit(s, key, id))
    ensures Rollback(Encoded(s), id) == Encoded(Rollback(s, id))
  {
    hide Encode;
    PutCommutes(s, key, v);
    CommitCommutes(s, key, id);
  }

  /** What a store of bytes returns for a key: no bytes at all if it has none. */
  function Bytes(s: Store<Key, seq<Byte>>, key: Key): seq<Byte> {
    match Get(s, key)
    case Some(b) => b
    case None => []
  }

  /** Reading through the encoding: the value stored, and for a key never stored the
      timestamp 0 with an empty value. */
  lemma ReadsDecode(s: Store<Key, Stamped>, key: Key)
    requires key in s.committed ==> s.committed[key].timestamp < TIMESTAMPS
    ensures Decode(Bytes(Encoded(s), key)) == Some(OrAbsent(Get(s, key)))
    ensures key !in s.committed ==> Decode(Bytes(Encoded(s), key)) == Some(Stamped(0, []))
  {
    if key in s.committed { DecodeEncode(s.committed[key]); }
    hide Encode;
  }
}
