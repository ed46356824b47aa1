/** The byte source and sink the codec reads from and writes to. */
module Streams {
  import opened Types

  /** An async reader: the bytes the peer will ever send, and how many were read. */
  class ByteReader {
    const data: seq<byte>
    var pos: nat

    ghost predicate Valid()
      reads this
    {
      pos <= |data|
    }

    ghost function Remaining(): seq<byte>
      requires Valid()
      reads this
    {
      data[pos..]
    }

    constructor (data: seq<byte>)
      ensures Valid() && Remaining() == data
    {
      this.data := data;
      pos := 0;
    }

    /** Reads exactly `n` bytes, or reports the end of input. */
    method ReadExact(n: nat) returns (r: Result<seq<byte>>)
      requires Valid()
      modifies this
      ensures Valid()
      ensures n <= |old(Remaining())| ==>
                r == Ok(old(Remaining())[..n]) && Remaining() == old(Remaining())[n..]
      ensures n > |old(Remaining())| ==> r == Err(Io) && Remaining() == []
    {
      if pos + n <= |data| {
        r := Ok(data[pos..pos + n]);
        assert data[pos..][..n] == data[pos..pos + n];
        pos := pos + n;
      } else {
        r := Err(Io);
        pos := |data|;
      }
    }
  }

  /** An async writer whose transport fails once `capacity` bytes went out. */
  class ByteWriter {
    const capacity: nat
    var written: seq<byte>

    constructor (capacity: nat)
      ensures written == [] && this.capacity == capacity
    {
      this.capacity := capacity;
      written := [];
    }

    method WriteAll(data: seq<byte>) returns (r: Result<()>)
      requires |written| <= capacity
      modifies this
      ensures |written| <= capacity
      ensures r == if |old(written) + data| <= capacity then Ok(()) else Err(Io)
      ensures r.Ok? ==> written == old(written) + data
      ensures r.Err? ==> written == (old(written) + data)[..capacity]
    {
      var all := written + data;
      if |all| <= capacity {
        written := all;
        r := Ok(());
      } else {
        written := all[..capacity];
        r := Err(Io);
      }
    }
  }
}
