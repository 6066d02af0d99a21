/** What the selector and the sockets look like to a connection. */
module Network {

  /** fd_interest. */
  datatype Interest = Interest(read: bool, write: bool)

  const OP_NOOP := Interest(false, false)
  const OP_READ := Interest(true, false)
  const OP_WRITE := Interest(false, true)

  /** What recv(2) finds: octets on offer, end of stream, nothing for now, or an error. The call takes
  as many of the octets on offer as its window holds; none on offer is the same as nothing for now. */
  datatype RecvResult<T> = Offered(bytes: seq<T>) | PeerClosed | NothingYet | RecvFailed

  /** What send(2) does: takes up to `n` octets, would block, or fails. */
  datatype SendResult = Accepted(n: nat) | NotNow | SendFailed

  /** What a recv(2) with a window of `room` octets takes. */
  function Taken<T>(r: RecvResult<T>, room: nat): (s: seq<T>)
    ensures |s| <= room
  {
    if !r.Offered? then [] else if |r.bytes| <= room then r.bytes else r.bytes[..room]
  }

  /** End of stream or an error: nothing more will come. */
  predicate Broken<T>(r: RecvResult<T>) {
    r.PeerClosed? || r.RecvFailed?
  }

  /** How many of `pending` octets a send(2) takes. */
  function SentCount(s: SendResult, pending: nat): (n: nat)
    ensures n <= pending
  {
    if !s.Accepted? then 0 else if s.n < pending then s.n else pending
  }
}
