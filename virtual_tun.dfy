/**
 * The in-memory network device behind the stack: frames the engine
 * transmits go to the back of `packets_from_inside`, and frames the foreign
 * caller injects (as Blobs) wait in `packets_from_outside` until the engine
 * receives them.
 */
module VirtualTun {
  import opened Net
  import opened Blobs

  /** The MTU every virtual device reports. */
  const DefaultMtu: nat := 1500

  /** `Arc<Mutex<VecDeque<Vec<u8>>>>`: frames on their way out to the caller. */
  class FrameQueue {
    var items: seq<seq<byte>>

    constructor ()
      ensures items == []
    {
      items := [];
    }

    method PushBack(frame: seq<byte>)
      modifies this
      ensures items == old(items) + [frame]
    {
      items := items + [frame];
    }

    /** `pop_front`: the oldest frame, or None when the queue is empty. */
    method PopFront() returns (frame: Option<seq<byte>>)
      modifies this
      ensures old(items) == [] ==> frame.None? && items == []
      ensures old(items) != [] ==> frame == Some(old(items)[0]) && items == old(items)[1..]
    {
      if items == [] {
        frame := None;
      } else {
        frame := Some(items[0]);
        items := items[1..];
      }
    }
  }

  /**
   * `Arc<Mutex<VecDeque<Blob>>>`: frames injected by the caller. The ghost
   * fields record every Blob ever pushed and every Blob ever popped.
   */
  class BlobQueue {
    var items: seq<Blob>
    ghost var pushed: seq<Blob>
    ghost var popped: seq<Blob>

    /** First in, first out: what was popped, then what waits, is what was pushed. */
    ghost predicate Valid()
      reads this
    {
      popped + items == pushed
    }

    constructor ()
      ensures Valid() && items == [] && pushed == [] && popped == []
    {
      items := [];
      pushed := [];
      popped := [];
    }

    method PushBack(b: Blob)
      requires Valid()
      modifies this
      ensures Valid()
      ensures items == old(items) + [b] && pushed == old(pushed) + [b] && popped == old(popped)
    {
      items := items + [b];
      pushed := pushed + [b];
    }

    /** `pop_front`: the oldest waiting Blob, or None when the queue is empty. */
    method PopFront() returns (b: Option<Blob>)
      requires Valid()
      modifies this
      ensures Valid() && pushed == old(pushed)
      ensures old(items) == [] ==> b.None? && items == [] && popped == old(popped)
      ensures old(items) != [] ==> b == Some(old(items)[0]) && items == old(items)[1..]
                                   && popped == old(popped) + [old(items)[0]]
    {
      if items == [] {
        b := None;
      } else {
        b := Some(items[0]);
        items := items[1..];
        popped := popped + [b.value];
      }
    }
  }

  /** What `recv` reports: the size of the frame written, or `Err(1)` for an empty queue. */
  datatype RecvReply = Got(size: nat) | Empty

  /** `DeviceCapabilities`, reduced to the MTU and the burst size; the source sets only the MTU. */
  datatype DeviceCapabilities = DeviceCapabilities(maxTransmissionUnit: nat, maxBurstSize: Option<nat>)

  datatype Medium = Ethernet | Ip

  /**
   * `recv` as written: `copy_from_slice` from the frame into the whole
   * device buffer panics unless the two lengths are equal.
   */
  function RecvAsWritten(bufferLength: nat, data: seq<byte>): (r: Outcome<RecvReply>)
    ensures r.Ok? <==> |data| == bufferLength
    ensures r.Ok? ==> r.value == Got(bufferLength)
  {
    if |data| == bufferLength then Ok(Got(|data|)) else Panic(FrameLengthMismatch)
  }

  /**
   * As written, a 60-byte frame (shorter than the 1500-byte buffer) makes
   * `recv` panic, though it fits; so does every frame of any other length
   * than 1500.
   */
  lemma ShortFramePanicsAsWritten()
    ensures RecvAsWritten(DefaultMtu, Zeros(60)) == Panic(FrameLengthMismatch)
  {
  }

  /** Copy `data` over the first `|data|` bytes of `buffer`, leaving the rest as it was. */
  method CopyToFront(buffer: array<byte>, data: seq<byte>)
    requires |data| <= buffer.Length
    modifies buffer
    ensures buffer[..|data|] == data && buffer[|data|..] == old(buffer[|data|..])
  {
    forall i | 0 <= i < |data| {
      buffer[i] := data[i];
    }
  }

  /** The receive half of a token pair: the frame just received. */
  datatype RxToken = RxToken(buffer: seq<byte>)
  {
    /** `RxToken::consume`: the engine's closure sees exactly the received frame. */
    function Consume<R>(f: seq<byte> -> R): (r: R)
      ensures r == f(buffer)
    {
      f(buffer)
    }
  }

  /** The transmit half: a handle on the device whose outbound queue it fills. */
  datatype TxToken = TxToken(lower: VirtualTunInterface)
  {
    /**
     * `TxToken::consume`: the engine's closure fills a zeroed buffer of
     * `len` bytes (and cannot change its length); the filled buffer goes to
     * the back of `packets_from_inside` and the closure's result is returned.
     */
    method Consume<R>(len: nat, f: seq<byte> -> (seq<byte>, R)) returns (r: R)
      requires |f(Zeros(len)).0| == len
      modifies lower.packetsFromInside
      ensures lower.packetsFromInside.items == old(lower.packetsFromInside.items) + [f(Zeros(len)).0]
      ensures r == f(Zeros(len)).1
    {
      var buffer := Zeros(len);
      var (filled, result) := f(buffer);
      lower.packetsFromInside.PushBack(filled);
      r := result;
    }
  }

  /**
   * `VirtualTunInterface`. Its clones share both queues, so a token's
   * `lower` is the device itself. The ghost log records the drop of every
   * Blob the device received.
   */
  class VirtualTunInterface {
    const mtu: nat
    const packetsFromInside: FrameQueue
    const packetsFromOutside: BlobQueue
    ghost var drops: seq<DropAction>

    /** Every Blob popped from the inbound queue has been dropped once, in order. */
    ghost predicate Valid()
      reads this, packetsFromOutside
    {
      packetsFromOutside.Valid() && drops == DropAll(packetsFromOutside.popped)
    }

    /** `VirtualTunInterface::new`: the MTU is 1500 and both queues are shared with the caller. */
    constructor (packetsFromInside: FrameQueue, packetsFromOutside: BlobQueue)
      requires packetsFromOutside.Valid()
      ensures Valid()
      ensures mtu == DefaultMtu
      ensures this.packetsFromInside == packetsFromInside && this.packetsFromOutside == packetsFromOutside
    {
      mtu := DefaultMtu;
      this.packetsFromInside := packetsFromInside;
      this.packetsFromOutside := packetsFromOutside;
      drops := DropAll(packetsFromOutside.popped);
    }

    /**
     * `recv`, with the copy corrected to fill only the first `|data|` bytes
     * of the buffer: pop the oldest Blob, copy its bytes to the front of the
     * buffer and report their count; report Empty when nothing waits. The
     * popped Blob is dropped on the way out.
     */
    method Recv(buffer: array<byte>) returns (r: Outcome<RecvReply>)
      requires Valid()
      modifies packetsFromOutside, this`drops, buffer
      ensures Valid()
      ensures packetsFromOutside.pushed == old(packetsFromOutside.pushed)
      ensures old(packetsFromOutside.items) == [] ==>
                r == Ok(Empty) && packetsFromOutside.items == [] && drops == old(drops)
                && packetsFromOutside.popped == old(packetsFromOutside.popped)
                && buffer[..] == old(buffer[..])
      ensures old(packetsFromOutside.items) != [] ==>
                var b := old(packetsFromOutside.items)[0];
                packetsFromOutside.items == old(packetsFromOutside.items)[1..]
                && packetsFromOutside.popped == old(packetsFromOutside.popped) + [b]
                && drops == old(drops) + [Drop(b)]
                && (|b.data| <= buffer.Length ==>
                      r == Ok(Got(|b.data|)) && buffer[..|b.data|] == b.data
                      && buffer[|b.data|..] == old(buffer[|b.data|..]))
                && (|b.data| > buffer.Length ==> r == Panic(FrameTooLong))
    {
      var next := packetsFromOutside.PopFront();
      match next
      case None =>
        r := Ok(Empty);
      case Some(b) =>
        DropAllAppend(packetsFromOutside.popped[..|packetsFromOutside.popped| - 1], b);
        assert packetsFromOutside.popped[..|packetsFromOutside.popped| - 1] == old(packetsFromOutside.popped);
        drops := drops + [Drop(b)];
        if |b.data| > buffer.Length {
          r := Panic(FrameTooLong);
        } else {
          CopyToFront(buffer, b.data);
          r := Ok(Got(|b.data|));
        }
    }

    /** `Device::capabilities`: the device's MTU, every other capability left at its default. */
    function Capabilities(): (c: DeviceCapabilities)
      ensures c.maxTransmissionUnit == mtu && c.maxBurstSize.None?
    {
      DeviceCapabilities(mtu, None)
    }

    /** `Device::medium`: frames carry IP packets with no link-layer header. */
    function Medium(): (m: Medium)
      ensures m == Ip
    {
      Ip
    }

    /**
     * `Device::receive`: receive into a zeroed buffer of `mtu` bytes, cut it
     * to the frame's length, and pair it with a transmit token; None when no
     * frame waits. The frame handed out is the oldest injected Blob's bytes,
     * and never longer than the advertised MTU.
     */
    method Receive() returns (r: Outcome<Option<(RxToken, TxToken)>>)
      requires Valid()
      modifies packetsFromOutside, this`drops
      ensures Valid()
      ensures old(packetsFromOutside.items) == [] <==> r == Ok(None)
      ensures packetsFromOutside.pushed == old(packetsFromOutside.pushed)
      ensures old(packetsFromOutside.items) == [] ==>
                packetsFromOutside.items == [] && packetsFromOutside.popped == old(packetsFromOutside.popped) && drops == old(drops)
      ensures old(packetsFromOutside.items) != [] ==>
                var b := old(packetsFromOutside.items)[0];
                packetsFromOutside.items == old(packetsFromOutside.items)[1..]
                && packetsFromOutside.popped == old(packetsFromOutside.popped) + [b]
                && drops == old(drops) + [Drop(b)]
                && (|b.data| <= mtu ==> r == Ok(Some((RxToken(b.data), TxToken(this)))))
                && (|b.data| > mtu ==> r == Panic(FrameTooLong))
      ensures r.Ok? && r.value.Some? ==> |r.value.value.0.buffer| <= Capabilities().maxTransmissionUnit
    {
      var buffer := new byte[mtu](_ => 0);
      var got := Recv(buffer);
      match got
      case Panic(f) =>
        r := Panic(f);
      case Ok(Empty) =>
        r := Ok(None);
      case Ok(Got(size)) =>
        r := Ok(Some((RxToken(buffer[..size]), TxToken(this))));
    }

    /** `Device::transmit`: a transmit token is always available. */
    method Transmit() returns (t: Option<TxToken>)
      ensures t == Some(TxToken(this))
    {
      t := Some(TxToken(this));
    }
  }
}
