/** Types shared by every layer of the model. */
module Common {

  newtype byte = b: int | 0 <= b < 0x100

  datatype Option<+T> = None | Some(value: T)

  /** The errno values the code tells apart; everything else is `OtherErrno`. */
  datatype Errno = EWOULDBLOCK | EPIPE | ECONNRESET | OtherErrno {
    predicate IsFault() {
      this == EPIPE || this == ECONNRESET
    }
  }

  /** What one `readv` on a socket may do: bytes (none of them at end of stream) or an error. */
  datatype ReadResult = Got(bytes: seq<byte>) | ReadFailed(readErrno: Errno)

  /** What one `write` on a socket may do.  `Room(n)`: the kernel takes the first n bytes, or all
      of them when fewer are offered, and returns how many it took. */
  datatype WriteResult = Room(room: nat) | WriteFailed(errno: Errno) {
    function Taken(len: nat): nat
      requires Room?
    {
      if room < len then room else len
    }
  }

  function Max(a: int, b: int): int {
    if a < b then b else a
  }
}
