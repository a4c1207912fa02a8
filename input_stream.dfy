/** The input-stream abstraction the IPC reader pulls bytes from, with its
    two reference backings (a memory buffer and a file), and the caller-side
    retry loop that fills a request from a stream that may return short reads. */
module InputStreams {
  import opened IpcTypes

  /** The caller-owned growable byte buffer: a data pointer that may be
      null together with the number of bytes in use. */
  class ArrowBuffer {
    var data: array?<byte>
    var sizeBytes: nat

    ghost predicate Valid()
      reads this
    {
      (data == null ==> sizeBytes == 0) && (data != null ==> sizeBytes <= data.Length)
    }

    /** The bytes currently held; empty when the data pointer is null. */
    function Contents(): (s: seq<byte>)
      reads this, data
      requires Valid()
      ensures |s| == sizeBytes
    {
      if data == null then [] else data[..sizeBytes]
    }

    /** A buffer starts out with no allocation at all. */
    constructor Init()
      ensures Valid() && data == null && sizeBytes == 0
    {
      data := null;
      sizeBytes := 0;
    }

    /** Appends `bytes`, reallocating the storage. */
    method Append(bytes: seq<byte>)
      requires Valid()
      modifies this
      ensures Valid() && fresh(data)
      ensures Contents() == old(Contents()) + bytes
    {
      var s := Contents() + bytes;
      data := new byte[|s|](i requires 0 <= i < |s| => s[i]);
      sizeBytes := |s|;
    }
  }

  /** Where the bytes of an input stream come from. */
  datatype Backing = MemoryBuffer | File(closeOnRelease: bool)

  /** A pull source of bytes. Both backings serve reads from an advancing
      position over a fixed byte sequence: for a memory buffer that sequence
      is the buffer the stream took over, for a file it is the file's
      contents from the position it was opened at. */
  class InputStream {
    var data: seq<byte>
    var cursor: nat
    const backing: Backing
    var released: bool

    ghost predicate Valid()
      reads this
    {
      cursor <= |data|
    }

    /** The bytes that later reads will deliver, in order. */
    function Remaining(): seq<byte>
      reads this
      requires Valid()
    {
      data[cursor..]
    }

    /** Wraps a memory buffer. The stream takes ownership of the buffer's
        bytes: afterwards the caller's buffer is empty and its data pointer
        is null. */
    constructor InitBuffer(input: ArrowBuffer)
      requires input.Valid()
      modifies input
      ensures Valid() && Remaining() == old(input.Contents())
      ensures backing == MemoryBuffer && !released
      ensures input.Valid() && input.data == null && input.sizeBytes == 0
    {
      data := input.Contents();
      cursor := 0;
      backing := MemoryBuffer;
      released := false;
      input.data := null;
      input.sizeBytes := 0;
    }

    /** Wraps a file whose remaining contents are `contents`; whether the
        file is closed on release is recorded but has no effect on reads. */
    constructor InitFile(contents: seq<byte>, closeOnRelease: bool)
      ensures Valid() && Remaining() == contents
      ensures backing == File(closeOnRelease) && !released
    {
      data := contents;
      cursor := 0;
      backing := File(closeOnRelease);
      released := false;
    }

    /** Reads up to `n` bytes into `dest[offset..]`. Exactly
        min(n, remaining) bytes are delivered, so a request of 0 bytes and
        any request at the end of the source both deliver nothing. A null
        destination skips the same number of bytes without writing them.
        Destination bytes outside the delivered range are left untouched.
        The destination needs room for the bytes delivered, not for all
        `n` requested. */
    method Read(dest: array?<byte>, offset: nat, n: nat) returns (sizeRead: nat)
      requires Valid() && !released
      requires dest != null ==> offset + Min(n, |Remaining()|) <= dest.Length
      modifies this, dest
      ensures Valid() && data == old(data) && released == old(released)
      ensures sizeRead == Min(n, |old(Remaining())|)
      ensures Remaining() == old(Remaining())[sizeRead..]
      ensures dest != null ==> forall k :: 0 <= k < dest.Length ==>
        dest[k] == if offset <= k < offset + sizeRead then old(Remaining())[k - offset] else old(dest[k])
    {
      sizeRead := Min(n, |data| - cursor);
      if dest != null {
        var i := 0;
        while i < sizeRead
          invariant 0 <= i <= sizeRead
          modifies dest
          invariant forall k :: 0 <= k < dest.Length ==>
            dest[k] == if offset <= k < offset + i then data[cursor + k - offset] else old(dest[k])
        {
          dest[offset + i] := data[cursor + i];
          i := i + 1;
        }
      }
      cursor := cursor + sizeRead;
    }

    /** Gives up the source. A memory buffer is freed here. */
    method Release()
      requires Valid()
      modifies this
      ensures Valid() && released && Remaining() == []
    {
      data := [];
      cursor := 0;
      released := true;
    }
  }

  /** The caller's side of the read contract: a stream may deliver fewer
      bytes than requested, so the request is repeated until it is filled or
      a read delivers nothing. The outcome is min(n, remaining) bytes, stored
      at the front of `dest` (or skipped when `dest` is null). */
  method ReadFully(input: InputStream, dest: array?<byte>, n: nat) returns (got: nat)
    requires input.Valid() && !input.released
    requires dest != null ==> n <= dest.Length
    modifies input, dest
    ensures input.Valid() && input.data == old(input.data) && !input.released
    ensures got == Min(n, |old(input.Remaining())|)
    ensures input.Remaining() == old(input.Remaining())[got..]
    ensures dest != null ==> dest[..got] == old(input.Remaining())[..got] && dest[got..] == old(dest[got..])
  {
    ghost var source := input.Remaining();
    got := 0;
    while got < n
      invariant got <= n && got <= |source|
      invariant input.Valid() && input.data == old(input.data) && !input.released
      invariant input.Remaining() == source[got..]
      invariant dest != null ==> forall k :: 0 <= k < dest.Length ==>
        dest[k] == if k < got then source[k] else old(dest[k])
      decreases n - got
    {
      var k := input.Read(dest, got, n - got);
      if k == 0 {
        break;
      }
      got := got + k;
    }
    assert dest != null ==> dest[..got] == source[..got] && dest[got..] == old(dest[got..]) by {
      if dest != null {
        assert forall k :: 0 <= k < got ==> dest[..got][k] == source[..got][k];
        assert forall j :: 0 <= j < dest.Length - got ==> dest[got..][j] == old(dest[got..])[j];
      }
    }
  }
}
