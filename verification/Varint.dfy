/** The variable-length remaining-length integer (section 2.2.3 of MQTT 3.1.1). */
module Varint {
  import opened Types
  import opened Streams

  /** The largest value four length bytes can carry. */
  const SPEC_MAX_PACKET_SIZE: nat := 268_435_455

  /** What the front of a byte sequence says about a length. */
  datatype Length = Incomplete | Malformed | Complete(value: nat, used: nat) {
    /** The same length behind `used` more bytes that contribute `low`. */
    function Behind(low: nat, scale: nat, count: nat): Length {
      match this
      case Complete(v, n) => Complete(low + scale * v, count + n)
      case _ => this
    }
  }

  /** The value of the base-128 numeral, least significant group first, that
      starts `data` and has at most `budget` groups. */
  function LengthOf(data: seq<byte>, budget: nat): Length
    requires budget >= 1
  {
    if data == [] then Incomplete
    else if data[0] < 128 then Complete(data[0], 1)
    else if budget == 1 then Malformed
    else LengthOf(data[1..], budget - 1).Behind(data[0] % 128, 128, 1)
  }

  function EncodedLength(value: nat): (r: seq<byte>)
    ensures |r| >= 1
  {
    if value < 128 then [value] else [value % 128 + 128] + EncodedLength(value / 128)
  }

  function Pow128(k: nat): (r: nat)
    ensures r >= 1
  {
    if k == 0 then 1 else 128 * Pow128(k - 1)
  }

  method DecodeRemainingLengthFromSlice(data: seq<byte>) returns (r: Length)
    ensures r == LengthOf(data, 4)
  {
    var result: nat, multiplier: nat := 0, 1;
    for i := 0 to |data|
      invariant i <= 3
      invariant LengthOf(data, 4) == LengthOf(data[i..], 4 - i).Behind(result, multiplier, i)
    {
      LengthStep(data, i, result, multiplier);
      var b: int := data[i];
      result := result + b % 128 * multiplier;
      multiplier := multiplier * 128;
      if b < 128 {
        return Complete(result, i + 1);
      }
      if i >= 3 {
        return Malformed;
      }
    }
    return Incomplete;
  }

  method ReadRemainingLength(reader: ByteReader) returns (r: Result<nat>)
    requires reader.Valid()
    modifies reader
    ensures reader.Valid()
    ensures match LengthOf(old(reader.Remaining()), 4)
            case Complete(v, n) =>
              && r == Ok(v)
              && n <= |old(reader.Remaining())|
              && reader.Remaining() == old(reader.Remaining())[n..]
            case Malformed => r == Err(Codec(MalformedLength))
            case Incomplete => r == Err(Io)
  {
    ghost var all := reader.Remaining();
    var result: nat, multiplier: nat := 0, 1;
    for i := 0 to 4
      invariant reader.Valid()
      invariant i <= 3 && i <= |all| && reader.Remaining() == all[i..]
      invariant LengthOf(all, 4) == LengthOf(all[i..], 4 - i).Behind(result, multiplier, i)
    {
      var one :- reader.ReadExact(1);
      LengthStep(all, i, result, multiplier);
      var b: int := one[0];
      result := result + b % 128 * multiplier;
      multiplier := multiplier * 128;
      if b < 128 {
        return Ok(result);
      }
      if i == 3 {
        return Err(Codec(MalformedLength));
      }
    }
    assert false;
  }

  /** One turn of either decoder loop, which holds the value of the bytes before
      `i` in `result` and the weight of byte `i` in `multiplier`. */
  lemma LengthStep(data: seq<byte>, i: nat, result: nat, multiplier: nat)
    requires i <= 3 && i < |data|
    ensures LengthOf(data[i..], 4 - i).Behind(result, multiplier, i) == (
              var low := result + data[i] % 128 * multiplier;
              if data[i] < 128 then Complete(low, i + 1)
              else if i == 3 then Malformed
              else LengthOf(data[i + 1..], 3 - i).Behind(low, multiplier * 128, i + 1))
  {
    assert data[i..][1..] == data[i + 1..];
    if data[i] >= 128 && i < 3 && LengthOf(data[i + 1..], 3 - i).Complete? {
      var v := LengthOf(data[i + 1..], 3 - i).value;
      assert multiplier * (data[i] % 128 + 128 * v) == data[i] % 128 * multiplier + multiplier * 128 * v;
    }
  }

  method EncodeRemainingLength(value: nat) returns (out: seq<byte>)
    ensures out == EncodedLength(value)
  {
    out := [];
    var v := value;
    while true
      invariant out + EncodedLength(v) == EncodedLength(value)
      decreases v
    {
      ghost var tail := if v < 128 then [] else EncodedLength(v / 128);
      assert out + EncodedLength(v) == out + [if v < 128 then v else v % 128 + 128] + tail;
      var b := v % 128;
      v := v / 128;
      if v > 0 {
        b := b + 128;
      }
      out := out + [b];
      if v == 0 {
        break;
      }
    }
  }

  // ---- what the encoding promises --------------------------------------------

  /** The encoder's output, followed by anything, decodes to the value when the
      budget covers it and is refused otherwise. */
  lemma {:induction false} DecodeEncoded(value: nat, suffix: seq<byte>, budget: nat)
    requires budget >= 1
    ensures LengthOf(EncodedLength(value) + suffix, budget)
         == if value < Pow128(budget) then Complete(value, |EncodedLength(value)|) else Malformed
    ensures |EncodedLength(value)| <= budget <==> value < Pow128(budget)
  {
    var all := EncodedLength(value) + suffix;
    if value >= 128 {
      assert all[1..] == EncodedLength(value / 128) + suffix;
      if budget > 1 {
        DecodeEncoded(value / 128, suffix, budget - 1);
      }
    }
  }

  /** Every accepted length fits the budget, and no byte sequence that carries a
      value is shorter than the encoder's. */
  lemma {:induction false} DecodedIsBounded(data: seq<byte>, budget: nat)
    requires budget >= 1
    requires LengthOf(data, budget).Complete?
    ensures var Complete(v, n) := LengthOf(data, budget);
            && v < Pow128(budget)
            && 1 <= n <= budget && n <= |data|
            && |EncodedLength(v)| <= n
  {
    if data[0] >= 128 {
      DecodedIsBounded(data[1..], budget - 1);
    }
  }

  /** A strict prefix of an encoding asks for more bytes. */
  lemma {:induction false} PrefixIsIncomplete(value: nat, k: nat, budget: nat)
    requires budget >= 1 && value < Pow128(budget)
    requires k < |EncodedLength(value)|
    ensures LengthOf(EncodedLength(value)[..k], budget) == Incomplete
  {
    if k > 0 {
      assert EncodedLength(value)[..k][1..] == EncodedLength(value / 128)[..k - 1];
      PrefixIsIncomplete(value / 128, k - 1, budget - 1);
    }
  }

  /** A verdict other than Incomplete does not change when bytes are appended. */
  lemma {:induction false} LengthIsStable(data: seq<byte>, more: seq<byte>, budget: nat)
    requires budget >= 1
    requires LengthOf(data, budget) != Incomplete
    ensures LengthOf(data + more, budget) == LengthOf(data, budget)
  {
    assert (data + more)[1..] == data[1..] + more;
    if data[0] >= 128 && budget > 1 {
      LengthIsStable(data[1..], more, budget - 1);
    }
  }

  lemma FourByteLength(value: nat, suffix: seq<byte>)
    ensures LengthOf(EncodedLength(value) + suffix, 4)
         == if value <= SPEC_MAX_PACKET_SIZE then Complete(value, |EncodedLength(value)|) else Malformed
  {
    assert Pow128(4) == 268_435_456;
    DecodeEncoded(value, suffix, 4);
  }

  /** Both decoders invert the encoder on every value up to the four-byte
      ceiling, with at most four bytes and no shorter alternative, and refuse
      every larger value. */
  lemma RemainingLengthRoundTrip(value: nat, suffix: seq<byte>)
    ensures value <= SPEC_MAX_PACKET_SIZE ==>
              && LengthOf(EncodedLength(value) + suffix, 4) == Complete(value, |EncodedLength(value)|)
              && |EncodedLength(value)| <= 4
              && forall data, n :: LengthOf(data, 4) == Complete(value, n) ==> |EncodedLength(value)| <= n
    ensures value > SPEC_MAX_PACKET_SIZE ==>
              && LengthOf(EncodedLength(value) + suffix, 4) == Malformed
              && |EncodedLength(value)| >= 5
              && forall data, n :: LengthOf(data, 4) != Complete(value, n)
  {
    assert Pow128(4) == 268_435_456;
    DecodeEncoded(value, suffix, 4);
    forall data, n | LengthOf(data, 4) == Complete(value, n)
      ensures |EncodedLength(value)| <= n && value < Pow128(4)
    {
      DecodedIsBounded(data, 4);
    }
  }
}
