/** Length-prefixed fields: what they mean as a grammar over the bytes still to
    be read, and the cursor readers that implement it. */
module Primitives {
  import opened Types

  datatype Taken<+T> = Taken(value: T, rest: seq<byte>)

  function U16Bytes(v: u16): (r: seq<byte>)
    ensures |r| == 2
  {
    [v / 256, v % 256]
  }

  function U16Of(hi: byte, lo: byte): u16 { hi * 256 + lo }

  function TakeU16(s: seq<byte>): Result<Taken<u16>> {
    if |s| < 2 then Err(Codec(UnexpectedEof)) else Ok(Taken(U16Of(s[0], s[1]), s[2..]))
  }

  function TakeBytes(s: seq<byte>): (r: Result<Taken<seq<byte>>>)
    ensures r.Ok? ==> |r.value.value| < 65536
    ensures r.Ok? ==> |s| == 2 + |r.value.value| + |r.value.rest|
  {
    var n :- TakeU16(s);
    if |n.rest| < n.value then Err(Codec(UnexpectedEof))
    else Ok(Taken(n.rest[..n.value], n.rest[n.value..]))
  }

  function TakeStr(s: seq<byte>): (r: Result<Taken<Str>>)
    ensures r.Ok? ==> Field(r.value.value)
    ensures r.Ok? ==> |s| == 2 + |r.value.value| + |r.value.rest|
  {
    var t :- TakeBytes(s);
    if ValidUtf8(t.value) then Ok(t) else Err(Codec(InvalidUtf8))
  }

  /** The writer's two length bytes are the length modulo 2^16. */
  function Prefixed(b: seq<byte>): (r: seq<byte>)
    ensures |r| == 2 + |b|
  {
    U16Bytes(|b| % 65536) + b
  }

  /** A cursor reader's outcome, against the grammar on the bytes from the cursor. */
  ghost predicate Reads<T(!new)>(
    body: seq<byte>, cursor: nat, spec: Result<Taken<T>>, r: Result<T>, cursor': nat)
  {
    && cursor <= cursor' <= |body|
    && match spec
       case Ok(t) => r == Ok(t.value) && t.rest == body[cursor'..]
       case Err(e) => r == Err(e)
  }

  method ReadU16(body: seq<byte>, cursor: nat) returns (r: Result<u16>, cursor': nat)
    requires cursor <= |body|
    ensures Reads(body, cursor, TakeU16(body[cursor..]), r, cursor')
  {
    if cursor + 2 > |body| {
      return Err(Codec(UnexpectedEof)), cursor;
    }
    assert body[cursor..][2..] == body[cursor + 2..];
    return Ok(U16Of(body[cursor], body[cursor + 1])), cursor + 2;
  }

  method ReadBytes(body: seq<byte>, cursor: nat) returns (r: Result<seq<byte>>, cursor': nat)
    requires cursor <= |body|
    ensures Reads(body, cursor, TakeBytes(body[cursor..]), r, cursor')
  {
    var len, at := ReadU16(body, cursor);
    if len.Err? {
      return Err(len.error), at;
    }
    if at + len.value > |body| {
      return Err(Codec(UnexpectedEof)), at;
    }
    assert body[at..][..len.value] == body[at..at + len.value];
    assert body[at..][len.value..] == body[at + len.value..];
    return Ok(body[at..at + len.value]), at + len.value;
  }

  method ReadArcStr(body: seq<byte>, cursor: nat) returns (r: Result<Str>, cursor': nat)
    requires cursor <= |body|
    ensures Reads(body, cursor, TakeStr(body[cursor..]), r, cursor')
  {
    var len, at := ReadU16(body, cursor);
    if len.Err? {
      return Err(len.error), at;
    }
    if at + len.value > |body| {
      return Err(Codec(UnexpectedEof)), at;
    }
    assert body[at..][..len.value] == body[at..at + len.value];
    assert body[at..][len.value..] == body[at + len.value..];
    var s := body[at..at + len.value];
    if !ValidUtf8(s) {
      return Err(Codec(InvalidUtf8)), at;
    }
    return Ok(s), at + len.value;
  }

  lemma U16RoundTrip(v: u16, suffix: seq<byte>)
    ensures TakeU16(U16Bytes(v) + suffix) == Ok(Taken(v, suffix))
  {
    assert (U16Bytes(v) + suffix)[2..] == suffix;
  }

  /** A field of at most 65535 bytes is read back whole and nothing more is. */
  lemma BytesRoundTrip(b: seq<byte>, suffix: seq<byte>)
    requires |b| < 65536
    ensures TakeBytes(Prefixed(b) + suffix) == Ok(Taken(b, suffix))
  {
    var n: u16 := |b|;
    var tail := b + suffix;
    assert Prefixed(b) + suffix == U16Bytes(n) + tail;
    U16RoundTrip(n, tail);
    assert tail[..n] == b && tail[n..] == suffix;
  }

  lemma StrRoundTrip(s: Str, suffix: seq<byte>)
    requires |s| < 65536 && ValidUtf8(s)
    ensures TakeStr(Prefixed(s) + suffix) == Ok(Taken(s, suffix))
  {
    BytesRoundTrip(s, suffix);
  }
}
