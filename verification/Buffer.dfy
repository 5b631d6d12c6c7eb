/** The growable byte buffer: one array, a reader index and a writer index. */
module ByteBuffer {
  import opened Common
  import Spec = BufferSpec

  class Buffer {
    var data: array<byte>
    var readerIndex: nat
    var writerIndex: nat

    ghost predicate Valid()
      reads this
    {
      Spec.CHEAP_PREPEND <= readerIndex <= writerIndex <= data.Length
    }

    ghost function View(): Spec.Store
      requires Valid()
      reads this, data
    {
      Spec.Store(data.Length, readerIndex, data[readerIndex..writerIndex])
    }

    constructor (initialSize: nat := Spec.INITIAL_SIZE)
      ensures Valid() && fresh(data)
      ensures View() == Spec.Initial(initialSize)
    {
      data := new byte[Spec.CHEAP_PREPEND + initialSize](_ => 0);
      readerIndex, writerIndex := Spec.CHEAP_PREPEND, Spec.CHEAP_PREPEND;
    }

    function ReadableBytes(): (n: nat)
      requires Valid()
      reads this, data
      ensures n == |View().bytes|
    {
      writerIndex - readerIndex
    }

    function WritableBytes(): (n: nat)
      requires Valid()
      reads this, data
      ensures n == View().Writable()
    {
      data.Length - writerIndex
    }

    function PrependableBytes(): (n: nat)
      requires Valid()
      reads this, data
      ensures n == View().Prependable()
    {
      readerIndex - Spec.CHEAP_PREPEND
    }

    method Retrieve(len: nat)
      requires Valid()
      modifies this`readerIndex, this`writerIndex
      ensures Valid() && View() == Spec.Retrieve(old(View()), len)
    {
      if len < ReadableBytes() {
        readerIndex := readerIndex + len;
      } else {
        RetrieveAll();
      }
    }

    method RetrieveAll()
      requires Valid()
      modifies this`readerIndex, this`writerIndex
      ensures Valid() && View() == Spec.RetrieveAll(old(View()))
    {
      readerIndex := Spec.CHEAP_PREPEND;
      writerIndex := Spec.CHEAP_PREPEND;
    }

    method RetrieveAllAsString() returns (result: seq<byte>)
      requires Valid()
      modifies this`readerIndex, this`writerIndex
      ensures Valid() && View() == Spec.RetrieveAll(old(View()))
      ensures result == old(View()).bytes
    {
      result := data[readerIndex..writerIndex];
      RetrieveAll();
    }

    /** Only the storage bounds the read: past the readable bytes the result is whatever the
        storage holds, so it is a prefix of the readable bytes in and only in the case
        `len <= readable`. */
    method RetrieveAsString(len: nat) returns (result: seq<byte>)
      requires Valid() && readerIndex + len <= data.Length
      modifies this`readerIndex, this`writerIndex
      ensures Valid() && View() == Spec.Retrieve(old(View()), len)
      ensures result == old(data[readerIndex..readerIndex + len])
      ensures result <= old(View()).bytes <==> len <= |old(View()).bytes|
    {
      result := data[readerIndex..readerIndex + len];
      assert len <= ReadableBytes() ==> result == View().bytes[..len];
      Retrieve(len);
    }

    method EnsureWritableBytes(len: nat)
      requires Valid()
      modifies this, data
      ensures Valid() && (data == old(data) || fresh(data))
      ensures View() == Spec.EnsureWritable(old(View()), len)
    {
      if WritableBytes() < len {
        MakeSpace(len);
      }
    }

    method Append(bytes: seq<byte>)
      requires Valid()
      modifies this, data
      ensures Valid() && (data == old(data) || fresh(data))
      ensures View() == Spec.Append(old(View()), bytes)
    {
      Spec.AppendFits(View(), bytes);
      EnsureWritableBytes(|bytes|);
      CopyIn(bytes);
      HasWritten(|bytes|);
    }

    /** Bytes just written behind the writer index become readable. */
    method HasWritten(n: nat)
      requires Valid() && writerIndex + n <= data.Length
      modifies this`writerIndex
      ensures Valid()
      ensures View() == old(View()).(bytes := old(View()).bytes + old(data[writerIndex..writerIndex + n]))
    {
      writerIndex := writerIndex + n;
      assert data[readerIndex..writerIndex] == old(View()).bytes + data[writerIndex - n..writerIndex];
    }

    /** Copies bytes behind the writer index, which stays where it is. */
    method CopyIn(bytes: seq<byte>)
      requires Valid() && |bytes| <= WritableBytes()
      modifies data
      ensures data[readerIndex..writerIndex] == old(data[readerIndex..writerIndex])
      ensures data[writerIndex..writerIndex + |bytes|] == bytes
    {
      var i := 0;
      while i < |bytes|
        invariant i <= |bytes|
        invariant data[writerIndex..writerIndex + i] == bytes[..i]
        invariant forall k :: 0 <= k < writerIndex ==> data[k] == old(data[k])
      {
        data[writerIndex + i] := bytes[i];
        i := i + 1;
      }
    }

    /** Grows the storage, or moves the unread bytes to the front of it. */
    method MakeSpace(len: nat)
      requires Valid()
      modifies this, data
      ensures Valid() && (data == old(data) || fresh(data))
      ensures View() == Spec.MakeSpace(old(View()), len)
    {
      if WritableBytes() + PrependableBytes() < len {
        Resize(writerIndex + len);
      } else {
        MoveToFront();
      }
    }

    method Resize(size: nat)
      requires Valid() && writerIndex <= size
      modifies this`data
      ensures Valid() && fresh(data) && View() == old(View()).(size := size)
      ensures forall k :: 0 <= k < writerIndex ==> data[k] == old(data[k])
    {
      var grown := new byte[size](_ => 0);
      var i := 0;
      while i < size && i < data.Length
        invariant i <= size && i <= data.Length
        invariant forall k :: 0 <= k < i ==> grown[k] == data[k]
        modifies grown
      {
        grown[i] := data[i];
        i := i + 1;
      }
      assert writerIndex <= i;
      assert grown[readerIndex..writerIndex] == data[readerIndex..writerIndex];
      data := grown;
    }

    /** The forward overlapping copy: the byte read next is never one already overwritten. */
    method MoveToFront()
      requires Valid()
      modifies this`readerIndex, this`writerIndex, data
      ensures Valid() && View() == old(View()).(reader := Spec.CHEAP_PREPEND)
    {
      var readable := ReadableBytes();
      var i := 0;
      while i < readable
        invariant i <= readable
        invariant data[Spec.CHEAP_PREPEND..Spec.CHEAP_PREPEND + i] == old(data[readerIndex..writerIndex])[..i]
        invariant forall k :: readerIndex + i <= k < data.Length ==> data[k] == old(data[k])
        modifies data
      {
        data[Spec.CHEAP_PREPEND + i] := data[readerIndex + i];
        i := i + 1;
      }
      readerIndex := Spec.CHEAP_PREPEND;
      writerIndex := readerIndex + readable;
      assert data[readerIndex..writerIndex] == old(View()).bytes;
    }

    /** Scatter read: the kernel fills the tail first and the side array with the rest, then the
        side array is appended.  Returns the number of bytes, or -1 with the errno. */
    method ReadFd(r: ReadResult) returns (n: int, saved: Option<Errno>)
      requires Valid()
      requires r.Got? ==> |r.bytes| <= Spec.ReadLimit(View())
      modifies this, data
      ensures Valid() && (data == old(data) || fresh(data))
      ensures r.Got? ==> n == |r.bytes| && saved.None? && View() == Spec.ReadFd(old(View()), r.bytes)
      ensures r.ReadFailed? ==> n == -1 && saved == Some(r.readErrno) && View() == old(View())
    {
      var extra := new byte[Spec.EXTRA_SIZE](_ => 0);
      var writable := WritableBytes();
      n, saved := Readv(r, extra);
      if n < 0 {
      } else if n <= writable {
        HasWritten(n);
      } else {
        HasWritten(writable);
        assert View() == old(View()).(bytes := old(View()).bytes + r.bytes[..writable]);
        var side := extra[..n - writable];
        Append(side);
      }
    }

    /** What the kernel does with the two vectors: it writes behind the writer index and into the
        side array, and nowhere else. */
    method Readv(r: ReadResult, extra: array<byte>) returns (n: int, saved: Option<Errno>)
      requires Valid() && extra != data && extra.Length == Spec.EXTRA_SIZE
      requires r.Got? ==> |r.bytes| <= Spec.ReadLimit(View())
      modifies data, extra
      ensures data[readerIndex..writerIndex] == old(data[readerIndex..writerIndex])
      ensures r.ReadFailed? ==> n == -1 && saved == Some(r.readErrno)
      ensures r.Got? ==> n == |r.bytes| && saved == None
      ensures r.Got? && n <= WritableBytes() ==> data[writerIndex..writerIndex + n] == r.bytes
      ensures r.Got? && n > WritableBytes() ==>
        && data[writerIndex..writerIndex + WritableBytes()] == r.bytes[..WritableBytes()]
        && extra[..n - WritableBytes()] == r.bytes[WritableBytes()..]
    {
      match r
      case ReadFailed(e) =>
        n, saved := -1, Some(e);
      case Got(bytes) =>
        n, saved := |bytes|, None;
        var writable := WritableBytes();
        if |bytes| <= writable {
          CopyIn(bytes);
        } else {
          CopyIn(bytes[..writable]);
          var i := 0;
          while i < |bytes| - writable
            invariant i <= |bytes| - writable
            invariant extra[..i] == bytes[writable..writable + i]
            modifies extra
          {
            extra[i] := bytes[writable + i];
            i := i + 1;
          }
        }
    }

    /** Offers the readable bytes to the socket; the reader index is the caller's to advance. */
    method WriteFd(w: WriteResult) returns (n: int, ghost sent: seq<byte>, saved: Option<Errno>)
      requires Valid()
      ensures n == if w.Room? then w.Taken(|View().bytes|) else -1
      ensures saved == if w.Room? then None else Some(w.errno)
      ensures sent == if w.Room? then View().bytes[..n] else []
    {
      match w
      case Room(_) =>
        n, saved := w.Taken(ReadableBytes()), None;
        sent := View().bytes[..n];
      case WriteFailed(e) =>
        n, sent, saved := -1, [], Some(e);
    }
  }
}
