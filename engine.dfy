/**
 * The protocol engine's TCP socket, seen only through the calls the
 * multiplexing layer makes on it during one `spin`: `may_send`,
 * `send_slice`, `can_recv` and `recv`.
 */
module Engine {
  import opened Net

  /** What `send_slice` returns: how many bytes it took, or an error. */
  datatype SendReply = Sent(count: nat) | SendFailed

  /**
   * The engine socket's answers during one spin: whether it may send, how
   * many bytes its send buffer has room for, whether `send_slice` fails,
   * whether it can receive, and the chunk `recv` offers.
   */
  datatype TcpEngine = TcpEngine(maySend: bool, room: nat, sendFails: bool, canRecv: bool, offered: seq<byte>)

  /**
   * `send_slice`: an error, or as many bytes of the slice as the send buffer
   * has room for. It never claims more than it was offered, and it takes the
   * whole slice whenever the room allows.
   */
  function SendSlice(e: TcpEngine, slice: seq<byte>): (r: SendReply)
    ensures r.SendFailed? <==> e.sendFails
    ensures r.Sent? ==> r.count <= |slice| && r.count <= e.room
    ensures r.Sent? ==> (r.count == |slice| <==> |slice| <= e.room)
  {
    if e.sendFails then SendFailed
    else if |slice| <= e.room then Sent(|slice|)
    else Sent(e.room)
  }
}
