/** The linear I/O buffer (src/shared/buffer.c): one array, a read index and a write index.

The class is generic in its element type: the proxy stores bytes, the management session characters.
Its abstract value is `contents`, a bounded FIFO. The invariant that matters to every caller is that an
empty buffer always has both indices at the start, so it offers its whole capacity to recv(2). */
module Buffers {

  class Buffer<T(0)> {
    const data: array<T>
    var read: nat
    var write: nat
    ghost var contents: seq<T>   // the elements written and not yet read, oldest first

    ghost predicate Valid()
      reads this, data
      ensures Valid() ==> read <= write <= data.Length && |contents| == write - read && (contents == [] ==> read == 0)
    {
      read <= write <= data.Length && (read == write ==> read == 0) && contents == data[read..write]
    }

    constructor (n: nat)
      ensures Valid() && fresh(data) && data.Length == n && contents == []
    {
      data := new T[n];
      read, write, contents := 0, 0, [];
    }

    predicate CanWrite()
      reads this
    {
      data.Length - write > 0
    }

    predicate CanRead()
      reads this
    {
      write - read > 0
    }

    /** The length of the window that buffer_write_ptr offers to recv(2). */
    function Room(): (n: int)
      reads this
    {
      data.Length - write
    }

    /** The unread part, as buffer_read_ptr exposes it. */
    method Peek() returns (s: seq<T>)
      requires Valid()
      ensures s == contents
    {
      s := data[read..write];
    }

    /** recv(2) into the write window followed by buffer_write_adv. */
    method Fill(bytes: seq<T>)
      requires Valid()
      requires |bytes| <= Room()
      modifies this, data
      ensures Valid()
      ensures contents == old(contents) + bytes
      ensures read == old(read)
    {
      forall i | 0 <= i < |bytes| {
        data[write + i] := bytes[i];
      }
      write := write + |bytes|;
      contents := contents + bytes;
    }

    /** buffer_compact: memmove of the unread part to the start of the array. It is also what restores
    the invariant after a read that empties the buffer, hence the weaker precondition. */
    method Compact()
      requires read <= write <= data.Length && contents == data[read..write]
      modifies this`read, this`write, data
      ensures Valid() && read == 0
    {
      if read == 0 {
        // nothing to do
      } else if read == write {
        read, write := 0, 0;
      } else {
        var n := write - read;
        forall i | 0 <= i < n {
          data[i] := data[read + i];
        }
        read, write := 0, n;
      }
    }

    /** buffer_read_adv, with its compaction of an emptied buffer. */
    method ReadAdv(n: nat)
      requires Valid()
      requires n <= write - read
      modifies this, data
      ensures Valid()
      ensures contents == old(contents)[n..]
      ensures CanRead() ==> read == old(read) + n
    {
      read := read + n;
      contents := contents[n..];
      if read == write {
        Compact();
      }
    }

    /** buffer_read: takes the oldest element, or answers `none` (0 in the source) on an empty buffer. */
    method Read(none: T) returns (c: T)
      requires Valid()
      modifies this, data
      ensures Valid()
      ensures if old(contents) == [] then c == none && contents == [] else [c] + contents == old(contents)
    {
      if read == write {
        return none;
      }
      c := data[read];
      ReadAdv(1);
    }

    /** buffer_write: appends, or silently drops the byte when there is no room. */
    method Write(c: T)
      requires Valid()
      modifies this, data
      ensures Valid()
      ensures read == old(read)
      ensures contents == old(contents) + if old(CanWrite()) then [c] else []
    {
      if CanWrite() {
        data[write] := c;
        write := write + 1;
        contents := contents + [c];
      }
    }
  }
}
