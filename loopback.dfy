/**
 * The two directions of the virtual device seen from both ends: a Blob the
 * caller hands to the stack is the frame the engine receives from the
 * device, and a frame the engine transmits through the device is what the
 * caller collects from the stack. Stack and device share both queues.
 */
module Loopback {
  import opened Net
  import opened Blobs
  import opened VirtualTun
  import opened SmolStacks

  /**
   * `SmolStack::send` then `Device::receive`: with nothing else queued, the
   * engine's receive token holds exactly the Blob's bytes, and the Blob is
   * dropped once the device has read it.
   */
  method InjectThenReceive(stack: SmolStack, dev: VirtualTunInterface, blob: Blob)
      returns (r: Outcome<Option<(RxToken, TxToken)>>)
    requires stack.Valid() && dev.Valid()
    requires stack.packetsFromOutside == Some(dev.packetsFromOutside)
    requires dev.packetsFromOutside.items == []
    modifies dev.packetsFromOutside, dev`drops, stack.hasData
    ensures dev.Valid() && dev.packetsFromOutside.items == []
    ensures dev.drops == old(dev.drops) + [Drop(blob)]
    ensures |blob.data| <= dev.mtu ==> r == Ok(Some((RxToken(blob.data), TxToken(dev))))
    ensures |blob.data| > dev.mtu ==> r == Panic(FrameTooLong)
  {
    var sent := stack.Send(blob);
    r := dev.Receive();
  }

  /**
   * `Device::transmit`, `TxToken::consume`, then `SmolStack::receive_instantly`:
   * with nothing else queued, the caller collects exactly the frame the
   * engine's closure wrote into the zeroed buffer of `len` bytes.
   */
  method TransmitThenCollect<R>(stack: SmolStack, dev: VirtualTunInterface, len: nat,
                                f: seq<byte> -> (seq<byte>, R))
      returns (code: Outcome<nat>, data: seq<byte>, result: R)
    requires stack.packetsFromInside == Some(dev.packetsFromInside)
    requires dev.packetsFromInside.items == []
    requires |f(Zeros(len)).0| == len
    modifies dev.packetsFromInside, stack.hasData
    ensures code == Ok(0) && data == f(Zeros(len)).0 && |data| == len
    ensures result == f(Zeros(len)).1
    ensures dev.packetsFromInside.items == []
  {
    var tx := dev.Transmit();
    result := tx.value.Consume(len, f);
    code, data := stack.ReceiveInstantly();
  }
}
