/**
 * SmolSocket: the per-socket record of the multiplexing layer. Packets wait
 * in an outbound FIFO `to_send`; a packet the engine took only part of waits
 * in the one-slot `current_to_send` and is resumed before anything newer;
 * received chunks wait in an inbound FIFO `received`.
 *
 * The first half of the module states what one TCP `spin` does to these
 * queues as functions on values; the class below follows the source
 * statement by statement and is proved against those functions.
 */
module SmolSockets {
  import opened Net
  import opened Blobs
  import opened Engine

  /** The queue state of one socket. */
  datatype SocketQueues = SocketQueues(current: Option<Packet>, toSend: seq<Packet>, received: seq<seq<byte>>)

  /** Bytes still to send from a list of packets, front first. */
  function Backlog(ps: seq<Packet>): seq<byte>
  {
    if ps == [] then [] else Remaining(ps[0]) + Backlog(ps[1..])
  }

  function RemainingOf(p: Option<Packet>): seq<byte>
  {
    if p.Some? then Remaining(p.value) else []
  }

  /** Every byte the socket still owes the engine, in the order it will hand them over. */
  function Pending(q: SocketQueues): seq<byte>
  {
    RemainingOf(q.current) + Backlog(q.toSend)
  }

  /** What dropping the blobs of these packets does, in order. */
  function Actions(ps: seq<Packet>): seq<DropAction>
  {
    if ps == [] then [] else [Drop(ps[0].blob)] + Actions(ps[1..])
  }

  function ActionOf(p: Option<Packet>): seq<DropAction>
  {
    if p.Some? then [Drop(p.value.blob)] else []
  }

  /**
   * The drops a socket still owes for the blobs it owns: the resumption
   * slot, then the outbound queue.
   */
  function LiveActions(q: SocketQueues): seq<DropAction>
  {
    ActionOf(q.current) + Actions(q.toSend)
  }

  lemma {:induction false} BacklogAppend(ps: seq<Packet>, p: Packet)
    ensures Backlog(ps + [p]) == Backlog(ps) + Remaining(p)
  {
    if ps == [] {
      assert ps + [p] == [p];
    } else {
      assert (ps + [p])[1..] == ps[1..] + [p];
      BacklogAppend(ps[1..], p);
    }
  }

  lemma {:induction false} ActionsAppend(ps: seq<Packet>, p: Packet)
    ensures Actions(ps + [p]) == Actions(ps) + [Drop(p.blob)]
  {
    if ps == [] {
      assert ps + [p] == [p];
    } else {
      assert (ps + [p])[1..] == ps[1..] + [p];
      ActionsAppend(ps[1..], p);
    }
  }

  /** Queueing a packet at the back of both the live queue and the history keeps both accounts. */
  lemma EnqueueKeepsAccounts(consumed: seq<byte>, drops: seq<DropAction>, current: Option<Packet>,
                             toSend: seq<Packet>, enqueued: seq<Packet>, p: Packet)
    requires consumed + (RemainingOf(current) + Backlog(toSend)) == Backlog(enqueued)
    requires drops + (ActionOf(current) + Actions(toSend)) == Actions(enqueued)
    ensures consumed + (RemainingOf(current) + Backlog(toSend + [p])) == Backlog(enqueued + [p])
    ensures drops + (ActionOf(current) + Actions(toSend + [p])) == Actions(enqueued + [p])
  {
    BacklogAppend(toSend, p);
    BacklogAppend(enqueued, p);
    AppendInside(consumed, RemainingOf(current), Backlog(toSend), Remaining(p));
    ActionsAppend(toSend, p);
    ActionsAppend(enqueued, p);
    AppendInside(drops, ActionOf(current), Actions(toSend), [Drop(p.blob)]);
  }

  /** Appending at the back of the innermost part appends at the back of the whole. */
  lemma AppendInside<T>(a: seq<T>, b: seq<T>, c: seq<T>, d: seq<T>)
    ensures a + (b + (c + d)) == (a + (b + c)) + d
  {
    assert b + (c + d) == (b + c) + d;
    assert a + ((b + c) + d) == (a + (b + c)) + d;
  }

  /**
   * A step that conserves bytes keeps the byte accounts: what it takes off
   * the socket extends `consumed`, and when it refuses nothing, what it
   * hands the engine extends `handed` alike.
   */
  lemma StepKeepsBytes(consumed: seq<byte>, handed: seq<byte>, lossless: bool, enqueued: seq<Packet>,
                       q: SocketQueues, s: SpinStep)
    requires consumed + Pending(q) == Backlog(enqueued)
    requires lossless ==> handed == consumed
    requires s.handed + s.discarded + Pending(s.queues) == Pending(q)
    ensures (consumed + (s.handed + s.discarded)) + Pending(s.queues) == Backlog(enqueued)
    ensures lossless && s.discarded == [] ==> handed + s.handed == consumed + (s.handed + s.discarded)
  {
    AppendInside(consumed, s.handed, s.discarded, Pending(s.queues));
    assert s.handed + s.discarded + Pending(s.queues) == s.handed + (s.discarded + Pending(s.queues));
    if lossless && s.discarded == [] {
      assert s.handed + s.discarded == s.handed;
    }
  }

  /** A step that conserves drops keeps the drop log in send order. */
  lemma StepKeepsDrops(drops: seq<DropAction>, released: seq<DropAction>, live: seq<DropAction>,
                       live': seq<DropAction>, all: seq<DropAction>)
    requires drops + live == all
    requires released + live' == live
    ensures (drops + released) + live' == all
  {
  }

  /** Dropping a live socket logs every drop it still owed: the log then covers every blob sent. */
  lemma DisposeLogsAll(drops: seq<DropAction>, slot: seq<DropAction>, queue: seq<DropAction>, all: seq<DropAction>)
    requires drops + (slot + queue) == all
    ensures multiset(drops + queue + slot) == multiset(all)
  {
    calc {
      multiset(drops + queue + slot);
      multiset(drops) + multiset(queue) + multiset(slot);
      multiset(drops + (slot + queue));
    }
  }

  // ---------------------------------------------------------------------------
  // get_latest_packet

  datatype Latest = Latest(packet: Option<Packet>, queues: SocketQueues)

  /** `get_latest_packet`: the resumption slot if set (and cleared), else the front of `to_send`. */
  function TakeLatest(q: SocketQueues): (l: Latest)
    ensures l.packet.None? <==> q.current.None? && q.toSend == []
    ensures l.queues.current.None? && l.queues.received == q.received
    ensures q.current.Some? ==> l.packet == q.current && l.queues.toSend == q.toSend
    ensures q.current.None? && l.packet.Some? ==> q.toSend == [l.packet.value] + l.queues.toSend
  {
    if q.current.Some? then Latest(q.current, q.(current := None))
    else if q.toSend == [] then Latest(None, q)
    else Latest(Some(q.toSend[0]), q.(toSend := q.toSend[1..]))
  }

  /**
   * The packet handed out is the one whose bytes come first: handing it out
   * and keeping the rest loses no byte and reorders none, and no blob is
   * gained or lost.
   */
  lemma TakeLatestKeepsOrder(q: SocketQueues)
    ensures RemainingOf(TakeLatest(q).packet) + Pending(TakeLatest(q).queues) == Pending(q)
    ensures ActionOf(TakeLatest(q).packet) + LiveActions(TakeLatest(q).queues) == LiveActions(q)
    ensures TakeLatest(q).packet.None? <==> LiveActions(q) == []
  {
  }

  // ---------------------------------------------------------------------------
  // spin, TCP arm

  /**
   * The send half of one TCP spin: which packet the socket keeps, which bytes
   * the engine accepted, which bytes were lost with a packet the engine
   * refused, and which blobs were dropped.
   */
  datatype SendStep = SendStep(
    current: Option<Packet>,
    toSend: seq<Packet>,
    handed: seq<byte>,
    discarded: seq<byte>,
    released: seq<Blob>)

  /**
   * smol_stack.rs:541-586 with the offset corrected: after a partial send the
   * packet is kept with its offset advanced by the accepted count; after a
   * full send or a `send_slice` error it is dropped.
   */
  function SpinSend(q: SocketQueues, e: TcpEngine): (s: SendStep)
    ensures s.handed == [] || s.discarded == []
    ensures |s.handed| <= e.room && |s.released| <= 1
    ensures s.discarded != [] ==> e.sendFails
    ensures !e.maySend ==> s == SendStep(q.current, q.toSend, [], [], [])
  {
    if !e.maySend then SendStep(q.current, q.toSend, [], [], [])
    else
      var l := TakeLatest(q);
      match l.packet
      case None => SendStep(l.queues.current, l.queues.toSend, [], [], [])
      case Some(p) =>
        var rest := Remaining(p);
        match SendSlice(e, rest)
        case Sent(k) =>
          if k < |rest| then SendStep(Some(Resume(p, k)), l.queues.toSend, rest[..k], [], [])
          else SendStep(None, l.queues.toSend, rest, [], [p.blob])
        case SendFailed => SendStep(None, l.queues.toSend, [], rest, [p.blob])
  }

  /** The result of one TCP spin on a socket's queues. */
  datatype SpinStep = SpinStep(queues: SocketQueues, handed: seq<byte>, discarded: seq<byte>, released: seq<Blob>)

  /** One TCP spin: the send half, then the receive half (smol_stack.rs:587-610). */
  function SpinTcp(q: SocketQueues, e: TcpEngine): (s: SpinStep)
    ensures s.handed == [] || s.discarded == []
    ensures |s.handed| <= e.room && |s.released| <= 1
    ensures |s.queues.received| == |q.received| + (if e.canRecv then 1 else 0)
    ensures s.queues.received[..|q.received|] == q.received
  {
    var s := SpinSend(q, e);
    var received := if e.canRecv then q.received + [e.offered] else q.received;
    SpinStep(SocketQueues(s.current, s.toSend, received), s.handed, s.discarded, s.released)
  }

  /**
   * The send half of a spin, packet by packet: the engine gets a prefix of the
   * next packet's unsent bytes; a partial send keeps the packet with its offset
   * advanced by exactly the accepted count, a full send or an error drops it,
   * and nothing happens when the engine may not send or nothing is queued.
   */
  lemma SpinSendsFromOffset(q: SocketQueues, e: TcpEngine)
    ensures var s := SpinTcp(q, e); var l := TakeLatest(q);
      && (!e.maySend || l.packet.None? ==>
            s.handed == [] && s.discarded == [] && s.released == []
            && s.queues.current == q.current && s.queues.toSend == q.toSend
            && Pending(s.queues) == Pending(q) && LiveActions(s.queues) == LiveActions(q))
      && (e.maySend && l.packet.Some? ==>
            var p := l.packet.value;
            var rest := Remaining(p);
            s.queues.toSend == l.queues.toSend
            && match SendSlice(e, rest)
               case Sent(k) =>
                 && s.handed == rest[..k] && s.discarded == []
                 && (k < |rest| ==> s.queues.current == Some(Resume(p, k)) && s.released == []
                                    && s.queues.current.value.blob.start == p.blob.start + k)
                 && (k == |rest| ==> s.queues.current.None? && s.released == [p.blob])
               case SendFailed =>
                 s.handed == [] && s.discarded == rest && s.queues.current.None? && s.released == [p.blob])
  {
    var l := TakeLatest(q);
    if !e.maySend {
    } else if l.packet.None? {
      TakeLatestKeepsOrder(q);
    } else {
      var p := l.packet.value;
      var rest := Remaining(p);
      match SendSlice(e, rest)
      case Sent(k) =>
        assert k <= |rest|;
        if k == |rest| {
          assert rest[..k] == rest;
        }
      case SendFailed =>
    }
  }

  /** The receive half: the whole offered chunk is appended at the back of `received`, and only when the engine can receive. */
  lemma SpinAppendsReceived(q: SocketQueues, e: TcpEngine)
    ensures SpinTcp(q, e).queues.received == if e.canRecv then q.received + [e.offered] else q.received
    ensures e.canRecv ==> SpinTcp(q, e).queues.received[|q.received|] == e.offered
    ensures SpinTcp(q, e).queues.received[..|q.received|] == q.received
  {
  }

  /**
   * One spin conserves bytes: the bytes it takes off the socket (handed to
   * the engine, or lost with a packet the engine refused) are exactly the
   * front of what the socket owed, and a spin never does both.
   */
  lemma SpinConservesBytes(q: SocketQueues, e: TcpEngine)
    ensures var s := SpinTcp(q, e);
      && s.handed + s.discarded + Pending(s.queues) == Pending(q)
      && (s.handed == [] || s.discarded == [])
  {
    var s := SpinTcp(q, e);
    var l := TakeLatest(q);
    SpinSendsFromOffset(q, e);
    TakeLatestKeepsOrder(q);
    if e.maySend && l.packet.Some? {
      var p := l.packet.value;
      var kept := RemainingOf(s.queues.current);
      if s.queues.current.Some? {
        assert s.handed + kept == Remaining(p);
      }
      TakeFront(s.handed, s.discarded, kept, Remaining(p), Backlog(l.queues.toSend));
    } else {
      TakeFront(s.handed, s.discarded, Pending(q), Pending(q), []);
    }
  }

  /**
   * Taking the front of `owed` off, either handed over with the rest kept or
   * discarded whole, leaves what was kept followed by the tail.
   */
  lemma TakeFront(handed: seq<byte>, discarded: seq<byte>, kept: seq<byte>, owed: seq<byte>, tail: seq<byte>)
    requires (handed + kept == owed && discarded == []) || (handed == [] && discarded == owed && kept == [])
    ensures handed + discarded + (kept + tail) == owed + tail
    ensures handed == [] || discarded == []
  {
    assert handed + [] == handed && [] + discarded == discarded;
  }

  /**
   * One spin conserves blobs: every drop the socket owed is either still
   * owed, in the same order, or done by this spin, exactly once.
   */
  lemma SpinConservesDrops(q: SocketQueues, e: TcpEngine)
    ensures var s := SpinTcp(q, e);
      DropAll(s.released) + LiveActions(s.queues) == LiveActions(q)
  {
    var s := SpinTcp(q, e);
    var l := TakeLatest(q);
    TakeLatestKeepsOrder(q);
    if e.maySend && l.packet.Some? {
      var p := l.packet.value;
      match SendSlice(e, Remaining(p))
      case Sent(k) =>
        if k < |Remaining(p)| {
          assert LiveActions(s.queues) == [Drop(Resume(p, k).blob)] + Actions(l.queues.toSend);
        } else {
          ReleasedFront(p, l.queues.toSend, s.queues);
        }
      case SendFailed =>
        ReleasedFront(p, l.queues.toSend, s.queues);
    }
  }

  /** Releasing the front packet and keeping the rest owes the same drops, in the same order. */
  lemma ReleasedFront(p: Packet, rest: seq<Packet>, after: SocketQueues)
    requires after.current.None? && after.toSend == rest
    ensures DropAll([p.blob]) + LiveActions(after) == [Drop(p.blob)] + Actions(rest)
  {
    assert DropAll([p.blob]) == [Drop(p.blob)];
  }

  /** The outcome of a run of spins on one socket. */
  datatype RunResult = RunResult(queues: SocketQueues, consumed: seq<byte>, handed: seq<byte>, lossless: bool)

  /** Spin a socket once per engine answer in `es`, in order. */
  function Run(q: SocketQueues, es: seq<TcpEngine>): RunResult
    decreases |es|
  {
    if es == [] then RunResult(q, [], [], true)
    else
      var s := SpinTcp(q, es[0]);
      var r := Run(s.queues, es[1..]);
      RunResult(r.queues, s.handed + s.discarded + r.consumed, s.handed + r.handed, s.discarded == [] && r.lossless)
  }

  /**
   * FIFO with resumption over any run of spins: the bytes taken off the
   * socket are the front of the bytes it owed, in order, and when no packet
   * was refused they are exactly the bytes handed to the engine.
   */
  lemma {:induction false} RunKeepsOrder(q: SocketQueues, es: seq<TcpEngine>)
    ensures Run(q, es).consumed + Pending(Run(q, es).queues) == Pending(q)
    ensures Run(q, es).lossless ==> Run(q, es).handed == Run(q, es).consumed
    decreases |es|
  {
    if es != [] {
      var s := SpinTcp(q, es[0]);
      var r := Run(s.queues, es[1..]);
      SpinConservesBytes(q, es[0]);
      RunKeepsOrder(s.queues, es[1..]);
      PrefixShift(s.handed + s.discarded, r.consumed, Pending(r.queues), Pending(s.queues));
      if s.discarded == [] {
        assert s.handed + s.discarded == s.handed;
      }
    }
  }

  /** `c + d == m` survives putting the same `a` in front of both sides. */
  lemma PrefixShift<T>(a: seq<T>, c: seq<T>, d: seq<T>, m: seq<T>)
    requires c + d == m
    ensures (a + c) + d == a + m
  {
  }

  /**
   * So the engine sees a prefix of the queued packets' bytes in send order
   * over any run of spins in which no packet was refused.
   */
  lemma RunHandsPrefix(q: SocketQueues, es: seq<TcpEngine>)
    ensures Run(q, es).lossless ==> Run(q, es).handed <= Pending(q)
  {
    RunKeepsOrder(q, es);
  }

  // ---------------------------------------------------------------------------
  // smol_stack.rs:576-581 as written

  datatype SendOutcome = ExitedProcess | KeptForResume | Released

  /**
   * What the source does with a packet after `send_slice`, as written: any
   * send it takes for partial reaches `process::exit(1)` before the packet is
   * stored back; otherwise the packet is dropped.
   */
  function SendOutcomeAsWritten(p: Packet, reply: SendReply): (o: SendOutcome)
    ensures o != KeptForResume
    ensures reply.SendFailed? ==> o == Released
  {
    match reply
    case Sent(k) => if PartialAsWritten(p, k) then ExitedProcess else Released
    case SendFailed => Released
  }

  /** The intended outcome: a partial send keeps the packet for resumption. */
  function SendOutcomeIntended(p: Packet, reply: SendReply): (o: SendOutcome)
    ensures o != ExitedProcess
    ensures o == KeptForResume <==> reply.Sent? && reply.count < |Remaining(p)|
  {
    match reply
    case Sent(k) => if k < |Remaining(p)| then KeptForResume else Released
    case SendFailed => Released
  }

  /**
   * Every partial send ends the process as written, where the intended code
   * keeps the packet and resumes it from the advanced offset.
   */
  lemma PartialSendExitsAsWritten(p: Packet, k: nat)
    requires k < |Remaining(p)|
    ensures SendOutcomeAsWritten(p, Sent(k)) == ExitedProcess
    ensures SendOutcomeIntended(p, Sent(k)) == KeptForResume
  {
  }

  /**
   * The spin step keeps the packet exactly when the intended outcome says
   * so: the corrected spin follows `SendOutcomeIntended`.
   */
  lemma SpinFollowsIntendedOutcome(q: SocketQueues, e: TcpEngine)
    requires e.maySend && TakeLatest(q).packet.Some?
    ensures var p := TakeLatest(q).packet.value;
      (SpinTcp(q, e).queues.current.Some? <==> SendOutcomeIntended(p, SendSlice(e, Remaining(p))) == KeptForResume)
  {
  }

  // ---------------------------------------------------------------------------
  // The socket record

  /**
   * `SmolSocket`. The ghost fields record its history: every packet passed to
   * `send`, the bytes that left the socket (`consumed`), those the engine
   * accepted (`handed`), and the drop of every blob the socket released.
   */
  class SmolSocket {
    const socketType: SocketType
    /** The socket's handle in the engine's socket set. */
    const socketHandle: nat
    /** The stack-wide `has_data` condition variable. */
    const hasData: Signal
    /** The handle the stack files this socket under. */
    ghost const key: nat
    var toSend: seq<Packet>
    var currentToSend: Option<Packet>
    var received: seq<seq<byte>>
    var endpoint: Option<IpAddress>
    /** `notify_all` calls on the socket's own `smol_socket_has_data`. */
    ghost var receiveSignals: nat

    ghost var enqueued: seq<Packet>
    ghost var consumed: seq<byte>
    ghost var handed: seq<byte>
    ghost var lossless: bool
    ghost var drops: seq<DropAction>
    /** Set once the socket itself has been dropped. */
    ghost var disposed: bool

    function Queues(): SocketQueues
      reads this`currentToSend, this`toSend, this`received
    {
      SocketQueues(currentToSend, toSend, received)
    }

    /**
     * The history accounts against queue state `q`: what was sent is what
     * left the socket followed by what `q` still owes the engine; the drop of
     * every blob ever sent is logged, in send order, or still owed by `q`;
     * and without a refused packet the engine got every byte that left.
     */
    ghost predicate AccountsFor(q: SocketQueues)
      reads this`consumed, this`handed, this`lossless, this`drops, this`enqueued
    {
      && consumed + Pending(q) == Backlog(enqueued)
      && drops + LiveActions(q) == Actions(enqueued)
      && (lossless ==> handed == consumed)
    }

    /**
     * The socket's history invariant: the accounts hold for its queues while
     * it lives; once it is dropped, the drop of every blob ever sent is logged
     * exactly once.
     */
    ghost predicate Valid()
      reads this`currentToSend, this`toSend, this`received, this`disposed
      reads this`consumed, this`handed, this`lossless, this`drops, this`enqueued
    {
      && (!disposed ==> AccountsFor(Queues()))
      && (disposed ==> multiset(drops) == multiset(Actions(enqueued)))
    }

    /** `SmolSocket::new`: empty queues, no resumption slot, no endpoint. */
    constructor (socketHandle: nat, socketType: SocketType, hasData: Signal, ghost key: nat)
      ensures Valid() && !disposed
      ensures this.socketHandle == socketHandle && this.socketType == socketType && this.hasData == hasData
      ensures this.key == key
      ensures toSend == [] && currentToSend.None? && received == [] && endpoint.None?
      ensures enqueued == [] && handed == [] && drops == [] && lossless && receiveSignals == 0
    {
      this.socketType := socketType;
      this.socketHandle := socketHandle;
      this.hasData := hasData;
      this.key := key;
      toSend := [];
      currentToSend := None;
      received := [];
      endpoint := None;
      receiveSignals := 0;
      enqueued := [];
      consumed := [];
      handed := [];
      lossless := true;
      drops := [];
      disposed := false;
    }

    /**
     * `SmolSocket::send`: a UDP or ICMP packet without an endpoint panics
     * before anything changes; otherwise the packet goes to the back of
     * `to_send`, the poller is woken and 0 is returned.
     */
    method Send(packet: Packet) returns (r: Outcome<nat>)
      requires Valid() && !disposed
      modifies this`toSend, this`enqueued, hasData
      ensures Valid()
      ensures r.Panic? <==> packet.endpoint.None? && (socketType == Udp || socketType == Icmp)
      ensures r.Panic? ==> r.fault == MissingEndpoint && Queues() == old(Queues())
                           && enqueued == old(enqueued) && hasData.notifications == old(hasData.notifications)
      ensures r.Ok? ==> r.value == 0 && toSend == old(toSend) + [packet] && enqueued == old(enqueued) + [packet]
                        && hasData.notifications == old(hasData.notifications) + 1
    {
      if packet.endpoint.None? && (socketType == Udp || socketType == Icmp) {
        return Panic(MissingEndpoint);
      }
      PushBack(packet);
      hasData.NotifyAll();
      r := Ok(0);
    }

    /** `to_send.push_back`: the packet joins the back of the outbound queue and of the history. */
    method PushBack(packet: Packet)
      requires Valid() && !disposed
      modifies this`toSend, this`enqueued
      ensures Valid()
      ensures toSend == old(toSend) + [packet] && enqueued == old(enqueued) + [packet]
    {
      assert AccountsFor(Queues());
      EnqueueKeepsAccounts(consumed, drops, currentToSend, toSend, enqueued, packet);
      toSend := toSend + [packet];
      enqueued := enqueued + [packet];
      assert !disposed;
      assert AccountsFor(Queues());
    }

    /**
     * `SmolSocket::receive`: pop the front chunk of `received` and return 0
     * with exactly its bytes (their count is the returned buffer's length);
     * return 1 and an untouched (empty) buffer when nothing was received.
     */
    method Receive() returns (code: nat, data: seq<byte>)
      modifies this`received
      ensures old(received) == [] ==> code == 1 && data == [] && received == []
      ensures old(received) != [] ==> code == 0 && data == old(received)[0] && received == old(received)[1..]
      ensures old(received) == [data] + received || (code == 1 && received == old(received))
    {
      if received == [] {
        return 1, [];
      }
      data := received[0];
      received := received[1..];
      code := 0;
    }

    /**
     * `SmolSocket::get_latest_packet`: the resumption slot if set (cleared
     * on the way), else the front of `to_send`; None only when both are empty.
     * The packet leaves the socket: its drop is owed by the caller.
     */
    method GetLatestPacket() returns (packet: Option<Packet>)
      modifies this`currentToSend, this`toSend
      ensures packet == TakeLatest(old(Queues())).packet && Queues() == TakeLatest(old(Queues())).queues
      ensures currentToSend.None?
      ensures old(currentToSend).Some? ==> packet == old(currentToSend) && toSend == old(toSend)
      ensures old(currentToSend).None? ==> (packet.None? <==> old(toSend) == [])
      ensures old(currentToSend).None? && old(toSend) != [] ==>
                packet == Some(old(toSend)[0]) && toSend == old(toSend)[1..]
      ensures RemainingOf(packet) + Pending(Queues()) == Pending(old(Queues()))
    {
      TakeLatestKeepsOrder(Queues());
      if currentToSend.Some? {
        packet := currentToSend;
        currentToSend := None;
      } else if toSend == [] {
        packet := None;
      } else {
        packet := Some(toSend[0]);
        toSend := toSend[1..];
      }
    }

    /**
     * The TCP arm of `SmolStack::spin` on this socket, with the partial-send
     * offset corrected: when the engine may send, take the latest packet and
     * offer it the unsent bytes; keep the packet with its offset advanced
     * after a partial send, drop it after a full send or an error. Then,
     * when the engine can receive, append the chunk it offers to `received`
     * and wake `receive_wait`.
     */
    method SpinTcpArm(e: TcpEngine)
      requires Valid() && !disposed
      modifies this`currentToSend, this`toSend, this`received, this`receiveSignals
      modifies this`consumed, this`handed, this`lossless, this`drops
      ensures Valid()
      ensures Queues() == SpinTcp(old(Queues()), e).queues
      ensures consumed == old(consumed) + (SpinTcp(old(Queues()), e).handed + SpinTcp(old(Queues()), e).discarded)
      ensures handed == old(handed) + SpinTcp(old(Queues()), e).handed
      ensures drops == old(drops) + DropAll(SpinTcp(old(Queues()), e).released)
      ensures receiveSignals == old(receiveSignals) + (if e.canRecv then 1 else 0)
    {
      ghost var q0 := Queues();
      SpinSendsFromOffset(q0, e);
      if e.maySend {
        var packet := GetLatestPacket();
        match packet
        case None =>
        case Some(p) =>
          var rest := p.blob.data[p.blob.start..];
          match SendSlice(e, rest)
          case Sent(k) =>
            if k < |rest| {
              currentToSend := Some(Resume(p, k));
            }
          case SendFailed =>
      }
      if e.canRecv {
        received := received + [e.offered];
        receiveSignals := receiveSignals + 1;
      }
      RecordSpin(q0, e);
    }

    /**
     * The history a spin leaves behind: the bytes it took off the socket,
     * those it handed to the engine, and the drops it did.
     */
    ghost method RecordSpin(q0: SocketQueues, e: TcpEngine)
      requires !disposed && AccountsFor(q0) && Queues() == SpinTcp(q0, e).queues
      modifies this`consumed, this`handed, this`lossless, this`drops
      ensures Valid()
      ensures consumed == old(consumed) + (SpinTcp(q0, e).handed + SpinTcp(q0, e).discarded)
      ensures handed == old(handed) + SpinTcp(q0, e).handed
      ensures drops == old(drops) + DropAll(SpinTcp(q0, e).released)
    {
      var step := SpinTcp(q0, e);
      SpinConservesBytes(q0, e);
      SpinConservesDrops(q0, e);
      StepKeepsBytes(consumed, handed, lossless, enqueued, q0, step);
      StepKeepsDrops(drops, DropAll(step.released), LiveActions(q0), LiveActions(step.queues), Actions(enqueued));
      consumed := consumed + (step.handed + step.discarded);
      handed := handed + step.handed;
      lossless := lossless && step.discarded == [];
      drops := drops + DropAll(step.released);
      assert !disposed;
      assert AccountsFor(Queues());
    }

    /**
     * The socket's own drop (when the stack drops it): every blob still in
     * `to_send`, then the one in `current_to_send`, is dropped.
     */
    ghost method Dispose()
      requires Valid() && !disposed
      modifies this`drops, this`disposed
      ensures Valid() && disposed
      ensures drops == old(drops) + Actions(toSend) + ActionOf(currentToSend)
    {
      assert AccountsFor(Queues());
      var logged, slot, queue := drops, ActionOf(currentToSend), Actions(toSend);
      drops := logged + queue + slot;
      disposed := true;
      DisposeLogsAll(logged, slot, queue, Actions(enqueued));
    }
  }
}
