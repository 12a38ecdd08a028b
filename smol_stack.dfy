/**
 * SmolStack: the socket table and configuration of one protocol-engine
 * instance. Sockets are keyed by handles from a monotonic counter; the
 * addresses, gateways and device accumulate until a one-shot `finalize`
 * builds the engine interface from them; `spin` moves bytes between a
 * socket's queues and its engine socket; `send` and the `receive_*` calls
 * move frames to and from the virtual device.
 */
module SmolStacks {
  import opened Net
  import opened Blobs
  import opened Engine
  import opened SmolSockets
  import opened VirtualTun

  /** The engine interface `finalize` builds: the device, the address list and both default routes. */
  datatype Interface = Interface(device: VirtualTunInterface, ipAddrs: seq<IpCidr>,
                                 defaultV4Route: Ipv4Address, defaultV6Route: Ipv6Address)

  /**
   * What a spin can touch on a socket, as the stack sees it: its queues, the
   * packets ever sent to it, the bytes handed to the engine, the destructor
   * calls logged, and its endpoint.
   */
  datatype SocketView = SocketView(queues: SocketQueues, enqueued: seq<Packet>, handed: seq<byte>,
                                   drops: seq<DropAction>, endpoint: Option<IpAddress>)

  ghost function View(s: SmolSocket): SocketView
    reads s
  {
    SocketView(s.Queues(), s.enqueued, s.handed, s.drops, s.endpoint)
  }

  /**
   * A socket as one TCP spin against the engine answers `e` leaves it: the
   * queues `SpinTcp` gives, the bytes it hands over appended to `handed`,
   * the drops of the blobs it releases appended to `drops`; nothing is
   * sent to the socket and its endpoint stays.
   */
  function Spun(v: SocketView, e: TcpEngine): SocketView
  {
    var step := SpinTcp(v.queues, e);
    v.(queues := step.queues, handed := v.handed + step.handed, drops := v.drops + DropAll(step.released))
  }

  /** The handles `new_socket_handle_key` has returned after `n` calls: 1, 2, ..., n. */
  function IssuedKeys(n: nat): (keys: seq<nat>)
    ensures |keys| == n
    ensures forall i | 0 <= i < n :: keys[i] == i + 1
  {
    seq(n, i => i + 1)
  }

  /** The handles issued so far are strictly increasing, hence pairwise distinct, and all positive. */
  lemma {:induction false} IssuedKeysIncrease(n: nat)
    ensures forall i, j | 0 <= i < j < n :: IssuedKeys(n)[i] < IssuedKeys(n)[j]
    ensures forall i | 0 <= i < n :: IssuedKeys(n)[i] >= 1
    ensures n > 0 ==> IssuedKeys(n)[n - 1] == n
  {
  }

  /** The next handle extends the issued ones by one. */
  lemma IssuedKeysStep(n: nat)
    ensures IssuedKeys(n + 1) == IssuedKeys(n) + [n + 1]
  {
    var longer, extended := IssuedKeys(n + 1), IssuedKeys(n) + [n + 1];
    assert |longer| == |extended|;
    assert forall i | 0 <= i < |longer| :: longer[i] == extended[i];
  }

  /** The longest prefix an address of this kind allows. */
  function MaxPrefix(a: IpAddress): (m: nat)
    ensures m == 32 <==> a.Ipv4?
    ensures m == 128 <==> a.Ipv6?
  {
    if a.Ipv4? then 32 else 128
  }

  class SmolStack {
    /** The engine's socket set: the kind of each engine socket, indexed by its handle. */
    var sockets: seq<SocketType>
    var currentKey: nat
    /** Every handle `new_socket_handle_key` has returned, in order. */
    ghost var issued: seq<nat>
    var smolSockets: map<nat, SmolSocket>
    var device: Option<VirtualTunInterface>
    var ipAddrs: Option<seq<IpCidr>>
    var defaultV4Gw: Option<Ipv4Address>
    var defaultV6Gw: Option<Ipv6Address>
    var interface: Option<Interface>
    const packetsFromInside: Option<FrameQueue>
    const packetsFromOutside: Option<BlobQueue>
    const hasData: Signal

    /**
     * The counter's history: the handles issued so far are 1, 2, ...,
     * `currentKey`. Only `new_socket_handle_key` touches the counter, so this
     * is kept apart from `Valid`.
     */
    ghost predicate KeysIssued()
      reads this`currentKey, this`issued
    {
      issued == IssuedKeys(currentKey)
    }

    /**
     * A socket filed under `h`: it knows its handle (so no socket sits under
     * two handles), it is alive, it shares the stack's `has_data`, it is TCP
     * or UDP, and its engine socket is of the same kind.
     */
    ghost predicate SocketOk(h: nat, s: SmolSocket)
      reads this`sockets, s`disposed
    {
      && s.key == h && !s.disposed && s.hasData == hasData
      && (s.socketType == Tcp || s.socketType == Udp)
      && s.socketHandle < |sockets| && sockets[s.socketHandle] == s.socketType
    }

    /** The socket under `h`, if any, keeps its history accounts. */
    ghost predicate Accounted(h: nat)
      reads this`smolSockets, if h in smolSockets then {smolSockets[h]} else {}
    {
      h in smolSockets ==> smolSockets[h].Valid()
    }

    /** Every socket in the table is well formed and keeps its history accounts. */
    ghost predicate SocketsValid()
      reads this`sockets, this`smolSockets, smolSockets.Values
    {
      && (forall h | h in smolSockets :: SocketOk(h, smolSockets[h]))
      && (forall h {:trigger Accounted(h)} :: Accounted(h))
    }

    /** Before `finalize` the device and address list are present; after it, only the interface. */
    ghost predicate ConfigValid()
      reads this`device, this`ipAddrs, this`interface
    {
      && (device.None? <==> ipAddrs.None?)
      && (device.None? <==> interface.Some?)
    }

    /** The device's inbound queue, when the stack has one, is first in, first out. */
    ghost predicate QueuesValid()
      reads if packetsFromOutside.Some? then {packetsFromOutside.value} else {}
    {
      packetsFromOutside.Some? ==> packetsFromOutside.value.Valid()
    }

    ghost predicate Valid()
      reads this`sockets, this`smolSockets, smolSockets.Values
      reads this`device, this`ipAddrs, this`interface
      reads if packetsFromOutside.Some? then {packetsFromOutside.value} else {}
    {
      SocketsValid() && ConfigValid() && QueuesValid()
    }

    /**
     * `SmolStack::new`: an empty socket set and table, the counter at 0, the
     * device and an empty address list waiting for `finalize`, no gateway
     * and no interface; the virtual-device queues and `has_data` are shared
     * with the caller.
     */
    constructor (device: VirtualTunInterface, packetsFromInside: Option<FrameQueue>,
                 packetsFromOutside: Option<BlobQueue>, hasData: Signal)
      requires packetsFromOutside.Some? ==> packetsFromOutside.value.Valid()
      ensures Valid() && KeysIssued()
      ensures sockets == [] && currentKey == 0 && smolSockets == map[]
      ensures this.device == Some(device) && ipAddrs == Some([])
      ensures defaultV4Gw.None? && defaultV6Gw.None? && interface.None?
      ensures this.packetsFromInside == packetsFromInside && this.packetsFromOutside == packetsFromOutside
      ensures this.hasData == hasData
    {
      sockets := [];
      currentKey := 0;
      issued := [];
      smolSockets := map[];
      this.device := Some(device);
      ipAddrs := Some([]);
      defaultV4Gw := None;
      defaultV6Gw := None;
      interface := None;
      this.packetsFromInside := packetsFromInside;
      this.packetsFromOutside := packetsFromOutside;
      this.hasData := hasData;
    }

    /** `get_smol_socket`: the socket under handle `h`, if any. */
    function GetSmolSocket(h: nat): (s: Option<SmolSocket>)
      reads this`smolSockets
      ensures s.Some? <==> h in smolSockets
      ensures s.Some? ==> s.value == smolSockets[h]
    {
      if h in smolSockets then Some(smolSockets[h]) else None
    }

    /**
     * `new_socket_handle_key`: increment the counter, then return it; the
     * first key is 1 and every key is larger than all keys before it.
     */
    method NewSocketHandleKey() returns (k: nat)
      requires KeysIssued()
      modifies this`currentKey, this`issued
      ensures KeysIssued()
      ensures k == old(currentKey) + 1 && currentKey == k
      ensures issued == old(issued) + [k]
      ensures forall i | 0 <= i < |old(issued)| :: old(issued)[i] < k
    {
      IssuedKeysStep(currentKey);
      currentKey := currentKey + 1;
      issued := issued + [currentKey];
      k := currentKey;
    }

    /**
     * `add_socket`: for TCP or UDP, add an engine socket of that kind and put
     * a new SmolSocket for it under `h`, dropping any socket already there
     * (and with it the blobs it still holds); any other kind panics.
     */
    method AddSocket(socketType: SocketType, h: nat) returns (r: Outcome<nat>)
      requires Valid()
      modifies this`sockets, this`smolSockets, if h in smolSockets then {smolSockets[h]} else {}
      ensures Valid()
      ensures socketType != Tcp && socketType != Udp ==>
                && r == Panic(UnsupportedSocketType) && sockets == old(sockets) && smolSockets == old(smolSockets)
                && (h in smolSockets ==> unchanged(smolSockets[h]))
      ensures socketType == Tcp || socketType == Udp ==>
                && r == Ok(0)
                && sockets == old(sockets) + [socketType]
                && h in smolSockets && fresh(smolSockets[h])
                && smolSockets == old(smolSockets)[h := smolSockets[h]]
                && smolSockets[h].socketType == socketType && smolSockets[h].socketHandle == |old(sockets)|
                && smolSockets[h].Queues() == SocketQueues(None, [], [])
                && smolSockets[h].endpoint.None? && smolSockets[h].receiveSignals == 0
                && smolSockets[h].enqueued == [] && smolSockets[h].handed == [] && smolSockets[h].drops == []
      ensures (socketType == Tcp || socketType == Udp) && h in old(smolSockets) ==>
                var gone := old(smolSockets)[h];
                gone.disposed && gone.drops == old(gone.drops) + Actions(old(gone.toSend)) + ActionOf(old(gone.currentToSend))
    {
      if socketType != Tcp && socketType != Udp {
        return Panic(UnsupportedSocketType);
      }
      var engineHandle := AddEngineSocket(socketType);
      Evict(h);
      Install(h, engineHandle, socketType);
      r := Ok(0);
    }

    /** `sockets.add`: a new engine socket of kind `t`, whose handle is returned. */
    method AddEngineSocket(t: SocketType) returns (engineHandle: nat)
      requires Valid()
      modifies this`sockets
      ensures Valid()
      ensures engineHandle == |old(sockets)| && sockets == old(sockets) + [t]
    {
      engineHandle := |sockets|;
      sockets := sockets + [t];
      forall h' | h' in smolSockets ensures SocketOk(h', smolSockets[h']) {
        assert old(SocketOk(h', smolSockets[h']));
      }
    }

    /**
     * The drop half of `add_socket`'s `insert`: the socket already under `h`,
     * if any, leaves the table and is dropped, which disposes of the blobs
     * it still holds.
     */
    method Evict(h: nat)
      requires Valid()
      modifies this`smolSockets, if h in smolSockets then {smolSockets[h]} else {}
      ensures Valid()
      ensures smolSockets == old(smolSockets) - {h}
      ensures h in old(smolSockets) ==>
                var gone := old(smolSockets)[h];
                gone.disposed && gone.drops == old(gone.drops) + Actions(old(gone.toSend)) + ActionOf(old(gone.currentToSend))
    {
      if h in smolSockets {
        var gone := smolSockets[h];
        assert Accounted(h);
        gone.Dispose();
        smolSockets := smolSockets - {h};
        forall h': nat | h' in smolSockets ensures SocketOk(h', smolSockets[h']) && Accounted(h') {
          assert old(SocketOk(h', smolSockets[h']) && Accounted(h'));
        }
      }
    }

    /**
     * `SmolSocket::new` and the store half of `add_socket`'s `insert`: a new
     * socket for engine socket `engineHandle` goes under the free handle `h`.
     */
    method Install(h: nat, engineHandle: nat, t: SocketType)
      requires Valid() && h !in smolSockets
      requires (t == Tcp || t == Udp) && engineHandle < |sockets| && sockets[engineHandle] == t
      modifies this`smolSockets
      ensures Valid()
      ensures h in smolSockets && fresh(smolSockets[h]) && smolSockets == old(smolSockets)[h := smolSockets[h]]
      ensures smolSockets[h].socketType == t && smolSockets[h].socketHandle == engineHandle
      ensures smolSockets[h].Queues() == SocketQueues(None, [], [])
      ensures smolSockets[h].endpoint.None? && smolSockets[h].receiveSignals == 0
      ensures smolSockets[h].enqueued == [] && smolSockets[h].handed == [] && smolSockets[h].drops == []
    {
      var s := new SmolSocket(engineHandle, t, hasData, h);
      smolSockets := smolSockets[h := s];
      forall h': nat | h' in smolSockets && h' != h ensures SocketOk(h', smolSockets[h']) && Accounted(h') {
        assert old(SocketOk(h', smolSockets[h']) && Accounted(h'));
      }
      assert Accounted(h);
    }

    /**
     * `tcp_connect`: panic on an unknown handle or when its engine socket is
     * not TCP; otherwise ask the engine to connect (`connectOk` is its
     * answer), record the endpoint whatever the answer, wake the poller, and
     * return 0 on success and 2 on an engine error.
     */
    method TcpConnect(h: nat, address: IpAddress, connectOk: bool) returns (r: Outcome<nat>)
      requires Valid()
      modifies (if h in smolSockets then {smolSockets[h]} else {})`endpoint, hasData
      ensures Valid()
      ensures h !in smolSockets ==> r == Panic(UnknownHandle) && hasData.notifications == old(hasData.notifications)
      ensures h in smolSockets && smolSockets[h].socketType != Tcp ==>
                r == Panic(WrongSocketType) && hasData.notifications == old(hasData.notifications)
                && smolSockets[h].endpoint == old(smolSockets[h].endpoint)
      ensures h in smolSockets && smolSockets[h].socketType == Tcp ==>
                && r == Ok(if connectOk then 0 else 2)
                && smolSockets[h].endpoint == Some(address)
                && hasData.notifications == old(hasData.notifications) + 1
    {
      if h !in smolSockets {
        return Panic(UnknownHandle);
      }
      var s := smolSockets[h];
      if sockets[s.socketHandle] != Tcp {
        return Panic(WrongSocketType);
      }
      s.endpoint := Some(address);
      hasData.NotifyAll();
      r := Ok(if connectOk then 0 else 2);
      forall h': nat ensures Accounted(h') {
        assert old(Accounted(h'));
      }
    }

    /**
     * `may_send`: for a TCP socket, 0 when the engine socket may send and 1
     * otherwise; a panic for an unknown handle or any other kind of socket.
     */
    function MaySend(h: nat, engineMaySend: bool): (r: Outcome<nat>)
      reads this`smolSockets
      ensures h !in smolSockets ==> r == Panic(UnknownHandle)
      ensures h in smolSockets && smolSockets[h].socketType != Tcp ==> r == Panic(NotImplemented)
      ensures r.Ok? ==> h in smolSockets && smolSockets[h].socketType == Tcp && (r.value == 0 <==> engineMaySend)
      ensures r.Ok? ==> r.value <= 1
    {
      if h !in smolSockets then Panic(UnknownHandle)
      else if smolSockets[h].socketType == Tcp then Ok(if engineMaySend then 0 else 1)
      else Panic(NotImplemented)
    }

    /**
     * `add_ipv4_address` / `add_ipv6_address`: append the address to the
     * list, in call order. Panics once `finalize` has taken the list, or when
     * the prefix is longer than the address allows.
     */
    method AddIpAddress(address: IpAddress, prefix: nat) returns (r: Outcome<()>)
      requires ConfigValid()
      modifies this`ipAddrs
      ensures ConfigValid()
      ensures old(ipAddrs).None? ==> r == Panic(AlreadyFinalized) && ipAddrs == old(ipAddrs)
      ensures old(ipAddrs).Some? && prefix > MaxPrefix(address) ==> r == Panic(InvalidPrefix) && ipAddrs == old(ipAddrs)
      ensures old(ipAddrs).Some? && prefix <= MaxPrefix(address) ==>
                r == Ok(()) && ipAddrs == Some(old(ipAddrs).value + [IpCidr(address, prefix)])
    {
      if ipAddrs.None? {
        return Panic(AlreadyFinalized);
      }
      if prefix > MaxPrefix(address) {
        return Panic(InvalidPrefix);
      }
      ipAddrs := Some(ipAddrs.value + [IpCidr(address, prefix)]);
      r := Ok(());
    }

    /** `add_ipv4_address`. */
    method AddIpv4Address(address: Ipv4Address, prefix: nat) returns (r: Outcome<()>)
      requires ConfigValid()
      modifies this`ipAddrs
      ensures ConfigValid()
      ensures old(ipAddrs).None? ==> r == Panic(AlreadyFinalized) && ipAddrs == old(ipAddrs)
      ensures old(ipAddrs).Some? && prefix > 32 ==> r == Panic(InvalidPrefix) && ipAddrs == old(ipAddrs)
      ensures old(ipAddrs).Some? && prefix <= 32 ==>
                r == Ok(()) && ipAddrs == Some(old(ipAddrs).value + [IpCidr(Ipv4(address), prefix)])
    {
      r := AddIpAddress(Ipv4(address), prefix);
    }

    /** `add_ipv6_address`. */
    method AddIpv6Address(address: Ipv6Address, prefix: nat) returns (r: Outcome<()>)
      requires ConfigValid()
      modifies this`ipAddrs
      ensures ConfigValid()
      ensures old(ipAddrs).None? ==> r == Panic(AlreadyFinalized) && ipAddrs == old(ipAddrs)
      ensures old(ipAddrs).Some? && prefix > 128 ==> r == Panic(InvalidPrefix) && ipAddrs == old(ipAddrs)
      ensures old(ipAddrs).Some? && prefix <= 128 ==>
                r == Ok(()) && ipAddrs == Some(old(ipAddrs).value + [IpCidr(Ipv6(address), prefix)])
    {
      r := AddIpAddress(Ipv6(address), prefix);
    }

    /** `add_default_v4_gateway`: set the gateway, replacing any earlier one. */
    method AddDefaultV4Gateway(address: Ipv4Address)
      modifies this`defaultV4Gw
      ensures defaultV4Gw == Some(address)
    {
      defaultV4Gw := Some(address);
    }

    /** `add_default_v6_gateway`: set the gateway, replacing any earlier one. */
    method AddDefaultV6Gateway(address: Ipv6Address)
      modifies this`defaultV6Gw
      ensures defaultV6Gw == Some(address)
    {
      defaultV6Gw := Some(address);
    }

    /**
     * `finalize`: panic unless both default gateways are set, then unless
     * the device is still here; otherwise move the device and the address
     * list into a new interface with both default routes and return 0.
     */
    method Finalize() returns (r: Outcome<nat>)
      requires ConfigValid()
      modifies this`device, this`ipAddrs, this`interface
      ensures ConfigValid()
      ensures old(defaultV4Gw).None? ==> r == Panic(MissingGateway(V4))
      ensures old(defaultV4Gw).Some? && old(defaultV6Gw).None? ==> r == Panic(MissingGateway(V6))
      ensures old(defaultV4Gw).Some? && old(defaultV6Gw).Some? && old(device).None? ==> r == Panic(AlreadyFinalized)
      ensures r.Panic? ==> device == old(device) && ipAddrs == old(ipAddrs) && interface == old(interface)
      ensures r.Ok? <==> old(defaultV4Gw).Some? && old(defaultV6Gw).Some? && old(device).Some?
      ensures r.Ok? ==>
                && r.value == 0 && device.None? && ipAddrs.None?
                && interface == Some(Interface(old(device).value, old(ipAddrs).value,
                                               old(defaultV4Gw).value, old(defaultV6Gw).value))
    {
      if defaultV4Gw.None? {
        return Panic(MissingGateway(V4));
      }
      if defaultV6Gw.None? {
        return Panic(MissingGateway(V6));
      }
      if device.None? {
        return Panic(AlreadyFinalized);
      }
      var dev := device.value;
      device := None;
      var addrs := ipAddrs.value;
      ipAddrs := None;
      interface := Some(Interface(dev, addrs, defaultV4Gw.value, defaultV6Gw.value));
      r := Ok(0);
    }

    /**
     * `spin`: panic on an unknown handle; for a TCP socket run the TCP arm
     * against the engine's answers `e` and return 0; every other kind panics
     * as not implemented.
     */
    method Spin(h: nat, e: TcpEngine) returns (r: Outcome<nat>)
      requires Valid()
      modifies if h in smolSockets then {smolSockets[h]} else {}
      ensures Valid() && smolSockets == old(smolSockets)
      ensures h !in smolSockets ==> r == Panic(UnknownHandle)
      ensures h in smolSockets ==>
                var s := smolSockets[h];
                && (s.socketType != Tcp ==> r == Panic(NotImplemented) && unchanged(s))
                && (s.socketType == Tcp ==>
                      var step := SpinTcp(old(s.Queues()), e);
                      && r == Ok(0) && s.Queues() == step.queues
                      && s.receiveSignals == old(s.receiveSignals) + (if e.canRecv then 1 else 0)
                      && s.enqueued == old(s.enqueued)
                      && s.consumed == old(s.consumed) + (step.handed + step.discarded)
                      && s.handed == old(s.handed) + step.handed
                      && s.drops == old(s.drops) + DropAll(step.released))
      ensures h in smolSockets && smolSockets[h].socketType == Tcp ==> View(smolSockets[h]) == Spun(old(View(smolSockets[h])), e)
      ensures forall h' | h' in smolSockets && h' != h :: View(smolSockets[h']) == old(View(smolSockets[h']))
      ensures forall h' | h' in smolSockets :: smolSockets[h'].endpoint == old(smolSockets[h'].endpoint)
    {
      if h !in smolSockets {
        return Panic(UnknownHandle);
      }
      if smolSockets[h].socketType != Tcp {
        return Panic(NotImplemented);
      }
      SpinTcpSocket(h, e);
      r := Ok(0);
    }

    /** The TCP arm of `spin` on the socket under `h`; the table and every other socket stay as they were. */
    method SpinTcpSocket(h: nat, e: TcpEngine)
      requires Valid() && h in smolSockets && smolSockets[h].socketType == Tcp
      modifies {smolSockets[h]}`currentToSend, {smolSockets[h]}`toSend, {smolSockets[h]}`received, {smolSockets[h]}`receiveSignals
      modifies {smolSockets[h]}`consumed, {smolSockets[h]}`handed, {smolSockets[h]}`lossless, {smolSockets[h]}`drops
      ensures Valid() && smolSockets == old(smolSockets)
      ensures var s := smolSockets[h]; var step := SpinTcp(old(s.Queues()), e);
        && s.Queues() == step.queues
        && s.receiveSignals == old(s.receiveSignals) + (if e.canRecv then 1 else 0)
        && s.consumed == old(s.consumed) + (step.handed + step.discarded)
        && s.handed == old(s.handed) + step.handed
        && s.drops == old(s.drops) + DropAll(step.released)
    {
      var s := smolSockets[h];
      assert Accounted(h);
      s.SpinTcpArm(e);
      forall h': nat ensures Accounted(h') {
        assert old(Accounted(h'));
      }
    }

    /**
     * The first half of `spin_all`: the handles of the table, each exactly
     * once, in the table's iteration order (which the model leaves open).
     */
    method SnapshotHandles() returns (handles: seq<nat>)
      ensures forall h :: h in handles <==> h in smolSockets
      ensures forall i, j | 0 <= i < j < |handles| :: handles[i] != handles[j]
    {
      handles := [];
      var left := smolSockets.Keys;
      while left != {}
        invariant forall h :: h in handles ==> h in smolSockets && h !in left
        invariant forall h :: h in smolSockets ==> h in handles || h in left
        invariant left <= smolSockets.Keys
        invariant forall i, j | 0 <= i < j < |handles| :: handles[i] != handles[j]
        decreases |left|
      {
        var h :| h in left;
        handles := handles + [h];
        left := left - {h};
      }
    }

    /**
     * `spin_all`: copy the handles out of the table first, then spin each
     * copied handle once, in the copied order, each against its own engine
     * answers. A socket whose kind `spin` does not implement panics.
     */
    method SpinAll(engines: nat -> TcpEngine) returns (r: Outcome<nat>)
      requires Valid()
      modifies smolSockets.Values
      ensures Valid() && smolSockets == old(smolSockets)
      ensures (forall h | h in smolSockets :: smolSockets[h].socketType == Tcp) ==>
                && r == Ok(0)
                && forall h | h in smolSockets :: View(smolSockets[h]) == Spun(old(View(smolSockets[h])), engines(h))
      ensures (exists h | h in smolSockets :: smolSockets[h].socketType != Tcp) ==> r == Panic(NotImplemented)
      ensures forall h | h in smolSockets ::
                View(smolSockets[h]) == old(View(smolSockets[h])) || View(smolSockets[h]) == Spun(old(View(smolSockets[h])), engines(h))
    {
      var handles := SnapshotHandles();
      r := SpinEach(handles, engines);
    }

    /**
     * The second half of `spin_all`: spin each copied handle once, in order,
     * stopping at the first panic, which only a socket of a kind other than
     * TCP causes.
     */
    method SpinEach(handles: seq<nat>, engines: nat -> TcpEngine) returns (r: Outcome<nat>)
      requires Valid()
      requires forall h :: h in handles <==> h in smolSockets
      requires forall i, j | 0 <= i < j < |handles| :: handles[i] != handles[j]
      modifies smolSockets.Values
      ensures Valid() && smolSockets == old(smolSockets)
      ensures r.Ok? ==>
                && r == Ok(0)
                && (forall j | 0 <= j < |handles| :: smolSockets[handles[j]].socketType == Tcp)
                && forall h | h in smolSockets :: View(smolSockets[h]) == Spun(old(View(smolSockets[h])), engines(h))
      ensures r.Panic? ==>
                r == Panic(NotImplemented) && exists j | 0 <= j < |handles| :: smolSockets[handles[j]].socketType != Tcp
      ensures forall h | h in smolSockets ::
                View(smolSockets[h]) == old(View(smolSockets[h])) || View(smolSockets[h]) == Spun(old(View(smolSockets[h])), engines(h))
    {
      ghost var before := map h | h in smolSockets :: View(smolSockets[h]);
      ghost var done: set<nat> := {};
      var i := 0;
      while i < |handles|
        invariant 0 <= i <= |handles|
        invariant Valid() && smolSockets == old(smolSockets)
        invariant forall j | 0 <= j < |handles| :: (handles[j] in done <==> j < i)
        invariant forall h | h in done :: h in smolSockets && smolSockets[h].socketType == Tcp
        invariant forall h | h in smolSockets ::
                    View(smolSockets[h]) == if h in done then Spun(before[h], engines(h)) else before[h]
      {
        var h := handles[i];
        var spun := Spin(h, engines(h));
        if spun.Panic? {
          return spun;
        }
        done := done + {h};
        i := i + 1;
      }
      r := Ok(0);
    }

    /**
     * `send`: append the Blob at the back of the device's inbound queue and
     * wake the poller; panics when the stack has no such queue.
     */
    method Send(blob: Blob) returns (r: Outcome<nat>)
      requires Valid()
      modifies (if packetsFromOutside.Some? then {packetsFromOutside.value} else {}), hasData
      ensures Valid()
      ensures packetsFromOutside.None? ==> r == Panic(NotVirtualTun) && hasData.notifications == old(hasData.notifications)
      ensures packetsFromOutside.Some? ==>
                && r == Ok(0)
                && packetsFromOutside.value.items == old(packetsFromOutside.value.items) + [blob]
                && packetsFromOutside.value.pushed == old(packetsFromOutside.value.pushed) + [blob]
                && packetsFromOutside.value.popped == old(packetsFromOutside.value.popped)
                && hasData.notifications == old(hasData.notifications) + 1
    {
      if packetsFromOutside.None? {
        return Panic(NotVirtualTun);
      }
      packetsFromOutside.value.PushBack(blob);
      hasData.NotifyAll();
      r := Ok(0);
    }

    /**
     * `receive_instantly`: pop the oldest outbound frame and return 0 with
     * exactly its bytes, waking the poller; return 1 with nothing when no
     * frame waits. Panics when the stack has no such queue.
     */
    method ReceiveInstantly() returns (r: Outcome<nat>, data: seq<byte>)
      modifies (if packetsFromInside.Some? then {packetsFromInside.value} else {}), hasData
      ensures packetsFromInside.None? ==> r == Panic(NotVirtualTun) && data == []
      ensures packetsFromInside.Some? && old(packetsFromInside.value.items) == [] ==>
                r == Ok(1) && data == [] && packetsFromInside.value.items == []
                && hasData.notifications == old(hasData.notifications)
      ensures packetsFromInside.Some? && old(packetsFromInside.value.items) != [] ==>
                && r == Ok(0) && data == old(packetsFromInside.value.items)[0]
                && packetsFromInside.value.items == old(packetsFromInside.value.items)[1..]
                && hasData.notifications == old(hasData.notifications) + 1
    {
      data := [];
      if packetsFromInside.None? {
        return Panic(NotVirtualTun), data;
      }
      var frame := packetsFromInside.value.PopFront();
      match frame
      case None =>
        r := Ok(1);
      case Some(f) =>
        data := f;
        hasData.NotifyAll();
        r := Ok(0);
    }

    /**
     * `receive_wait`: despite its name it does not wait; it behaves exactly
     * as `receive_instantly`.
     */
    method ReceiveWait() returns (r: Outcome<nat>, data: seq<byte>)
      modifies (if packetsFromInside.Some? then {packetsFromInside.value} else {}), hasData
      ensures packetsFromInside.None? ==> r == Panic(NotVirtualTun) && data == []
      ensures packetsFromInside.Some? && old(packetsFromInside.value.items) == [] ==>
                r == Ok(1) && data == [] && packetsFromInside.value.items == []
      ensures packetsFromInside.Some? && old(packetsFromInside.value.items) != [] ==>
                && r == Ok(0) && data == old(packetsFromInside.value.items)[0]
                && packetsFromInside.value.items == old(packetsFromInside.value.items)[1..]
    {
      r, data := ReceiveInstantly();
    }
  }
}
