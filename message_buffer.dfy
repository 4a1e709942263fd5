/**
 * The append side of MessageBuffer (src/message_buffer.h): a fixed array of
 * FK_MODULE_PROTOCOL_MAX_MESSAGE bytes and a length. The protocol header
 * that defines the capacity is not part of this model, so the capacity is a
 * constructor parameter. The nanopb read/write/send/receive members are not
 * modelled.
 */
module MessageBuffers {
  import opened Basics

  class MessageBuffer {
    const buffer: array<uint8>
    var length: nat

    ghost predicate Valid()
      reads this
    {
      length <= buffer.Length
    }

    /** The bytes appended since the last clear(). */
    function Contents(): seq<uint8>
      reads this, buffer
      requires Valid()
    {
      buffer[..length]
    }

    constructor (capacity: nat)
      ensures Valid() && buffer.Length == capacity && fresh(buffer) && Contents() == []
    {
      buffer := new uint8[capacity](_ => 0);
      length := 0;
    }

    /** size(). */
    function Size(): (n: nat)
      reads this, buffer
      requires Valid()
      ensures n == |Contents()|
    {
      length
    }

    /** empty(): holds exactly when nothing has been appended. */
    predicate Empty()
      reads this, buffer
      requires Valid()
      ensures Empty() <==> Contents() == []
    {
      length == 0
    }

    /** clear(). */
    method Clear()
      requires Valid()
      modifies this
      ensures Valid() && Contents() == [] && Empty()
    {
      length := 0;
    }

    /**
     * append(c): stores the byte after the others. The code does not check
     * the bound, so the caller must leave room.
     */
    method Append(c: uint8)
      requires Valid() && length < buffer.Length
      modifies this, buffer
      ensures Valid() && Contents() == old(Contents()) + [c] && Size() == old(Size()) + 1
      ensures !Empty()
      ensures buffer[length..] == old(buffer[..])[length..]
    {
      ghost var before := Contents();
      buffer[length] := c;
      length := length + 1;
      assert buffer[..length] == before + [c];
    }
  }

  /** Appending bytes one by one after a clear leaves exactly those bytes, in order. */
  method Fill(capacity: nat, bytes: seq<uint8>) returns (contents: seq<uint8>, empty: bool)
    requires |bytes| <= capacity
    ensures contents == bytes && (empty <==> bytes == [])
  {
    var m := new MessageBuffer(capacity);
    m.Clear();
    var i := 0;
    while i < |bytes|
      invariant i <= |bytes| && m.Valid() && m.buffer.Length == capacity && m.Contents() == bytes[..i]
      decreases |bytes| - i
    {
      m.Append(bytes[i]);
      assert bytes[..i + 1] == bytes[..i] + [bytes[i]];
      i := i + 1;
    }
    assert bytes[..i] == bytes;
    contents := m.Contents();
    empty := m.Empty();
  }
}
