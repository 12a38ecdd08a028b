# smol_tcp virtual-tun layer in Dafny

This project models the socket-multiplexing layer that sits between a foreign
(C/C++) caller and the smoltcp protocol engine, and the in-memory network
device that engine runs on.

- `SmolStack` keeps a table of `SmolSocket`s keyed by handles from a monotonic
  counter, plus the configuration (addresses, default gateways, device) that a
  one-shot `finalize` turns into an engine interface.
- `spin` moves bytes between one socket's queues and its engine TCP socket.
  Outbound packets wait in a FIFO. A packet the engine took only part of waits
  in a one-slot resumption buffer and goes before anything newer.
- A `Blob` (the caller's bytes) carries an optional destructor that must run
  exactly once, when the Blob is dropped.
- `VirtualTunInterface` is a device built on two shared queues. Frames the
  caller injects with `SmolStack::send` are received by the engine, and frames
  the engine transmits are collected with `receive_instantly` / `receive_wait`.

The engine is an oracle. For one spin, a `TcpEngine` value answers
`may_send`, `send_slice` (fails, or accepts as many bytes as its room allows),
`can_recv` and the chunk `recv` offers. A panic in the source is an
`Outcome.Panic(fault)` in the model. A `u8` status code is `Ok(code)`.

Files:
- `net.dfy`: bytes, addresses, socket kinds, faults, and a notification counter for a condition variable.
- `blobs.dfy`: Blob, Packet, the destructor call, and the partial-send offset.
- `engine.dfy`: the engine oracle.
- `smol_socket.dfy`: one TCP spin as functions on values, and the `SmolSocket` class proved against them, with a ghost log of destructor calls.
- `virtual_tun.dfy`: the queues, the device and its tokens.
- `smol_stack.dfy`: the `SmolStack` class.
- `loopback.dfy`: the two round trips through the shared queues.

Every socket keeps a ghost history. `enqueued` holds every packet passed to
`send`. `consumed` holds the bytes that left the socket. `handed` holds the
bytes the engine accepted. `drops` logs every destructor call. The invariant
`SmolSocket.Valid` ties these to the live queues:
- the bytes sent are the bytes consumed followed by the bytes still pending (FIFO with resumption);
- the drop of every blob ever sent is either logged, in send order, or still owed by the queues;
- once the socket itself is dropped, every drop is logged exactly once.

The stack's `Valid` keeps that invariant for every socket in the table. What a spin can change on a socket, seen from the stack, is its `SocketView` (queues, enqueued packets, handed bytes, drop log and endpoint); `Spun` gives the view one TCP spin leaves, and the stack's spin methods are stated against it.

## Model

| member | source | states |
|---|---|---|
| Blobs.Drop | src/virtual_tun/smol_stack.rs:57-68 | dropping a Blob calls the destructor with the owner pointer exactly when a destructor is present, and does nothing without one; a Blob with a destructor always carries an owner |
| Blobs.DropAllAppend | src/virtual_tun/smol_stack.rs:57-68 | dropping one more Blob appends exactly its drop action to the log |
| Blobs.Resume | src/virtual_tun/smol_stack.rs:546-547 | after the engine accepts `sent` of the unsent bytes, the accepted bytes followed by what is still unsent are the unsent bytes from before; the data, endpoint and destructor are unchanged |
| Blobs.ResumeAsWritten | src/virtual_tun/smol_stack.rs:557-560 | as written, the new offset is the data length minus the count sent, not the old offset plus it |
| Blobs.ResumeAsWrittenSkipsBytes | src/virtual_tun/smol_stack.rs:557-560 | as written, sending 3 of 10 bytes resumes at offset 7, so bytes 3 to 6 never reach the engine |
| Blobs.ResumeAsWrittenRepeatsTail | src/virtual_tun/smol_stack.rs:557-560 | as written, sending the last 3 bytes from offset 7 in full is still taken for a partial send, and the offset stays at 7 |
| Engine.SendSlice | src/virtual_tun/smol_stack.rs:548-549 | `send_slice` fails exactly when the engine says so, never takes more than it was offered or has room for, and takes the whole slice exactly when it fits |
| Net.Zeros | src/virtual_tun/virtual_tun.rs:123 | `vec![0; n]` has length n and only zero bytes |
| SmolSockets.BacklogAppend | src/virtual_tun/smol_stack.rs:119 | proof helper: queueing a packet at the back adds its unsent bytes at the back of the socket's backlog |
| SmolSockets.ActionsAppend | src/virtual_tun/smol_stack.rs:119 | proof helper: queueing a packet at the back adds its drop at the back of the drops the queue owes |
| SmolSockets.EnqueueKeepsAccounts | src/virtual_tun/smol_stack.rs:112-124 | proof helper: pushing a packet onto both the live queue and the history keeps both the byte account and the drop account |
| SmolSockets.TakeLatest | src/virtual_tun/smol_stack.rs:212-226 | the packet taken is the resumption slot when it is set, else the front of `to_send`; None exactly when both are empty; the slot is empty afterwards and `received` is untouched |
| SmolSockets.TakeLatestKeepsOrder | src/virtual_tun/smol_stack.rs:212-226 | `get_latest_packet` hands out the packet whose bytes come first, loses no byte and reorders none, and returns None exactly when the socket holds no packet |
| SmolSockets.SpinSend | src/virtual_tun/smol_stack.rs:541-586 | the send half of one spin never both hands bytes over and loses them, hands over at most the engine's room, drops at most one Blob, loses bytes only on an engine error, and changes nothing when the engine may not send |
| SmolSockets.SpinTcp | src/virtual_tun/smol_stack.rs:538-611 | one TCP spin keeps those bounds and adds exactly one received chunk when the engine can receive, none otherwise, keeping the chunks already received |
| SmolSockets.SpinSendsFromOffset | src/virtual_tun/smol_stack.rs:541-586 | one spin hands the engine the first k unsent bytes of the latest packet; a partial send keeps the packet with its offset advanced by exactly k; a full send or an engine error drops it; nothing happens when the engine may not send or nothing is queued |
| SmolSockets.SpinAppendsReceived | src/virtual_tun/smol_stack.rs:587-606 | when the engine can receive, the whole offered chunk goes to the back of `received`; the chunks already there are kept, in order |
| SmolSockets.SpinConservesBytes | src/virtual_tun/smol_stack.rs:541-586 | the bytes one spin takes off a socket, handed over or lost with a refused packet, are exactly the front of what it owed, and a spin never does both |
| SmolSockets.SpinConservesDrops | src/virtual_tun/smol_stack.rs:541-586 | every drop a socket owed before a spin is either still owed, in the same order, or done by that spin, exactly once |
| SmolSockets.ReleasedFront | src/virtual_tun/smol_stack.rs:567-570 | proof helper: dropping the front packet and keeping the rest owes the same drops in the same order |
| SmolSockets.RunKeepsOrder | src/virtual_tun/smol_stack.rs:541-586 | over any run of spins, the bytes taken off a socket are the front of what it owed, in order; without a refused packet they are exactly the bytes handed to the engine |
| SmolSockets.RunHandsPrefix | src/virtual_tun/smol_stack.rs:541-586 | over any run of spins without a refused packet, the bytes handed to the engine are a prefix of the queued packets' bytes in send order |
| Blobs.PartialAsWritten | src/virtual_tun/smol_stack.rs:557 | as written, the partial-send test is true at least whenever fewer than the unsent bytes were sent |
| SmolSockets.SendOutcomeAsWritten | src/virtual_tun/smol_stack.rs:576-581 | as written, a packet is never kept for resumption, and an engine error always drops it |
| SmolSockets.SendOutcomeIntended | src/virtual_tun/smol_stack.rs:553-555 | as intended, the process never exits, and the packet is kept exactly when the engine took fewer than its unsent bytes |
| SmolSockets.PartialSendExitsAsWritten | src/virtual_tun/smol_stack.rs:574-581 | as written, every partial send reaches `process::exit(1)`, where the intended code keeps the packet for resumption |
| SmolSockets.SpinFollowsIntendedOutcome | src/virtual_tun/smol_stack.rs:553-555 | the modelled spin keeps the packet exactly when the intended outcome is to keep it for resumption |
| SmolSockets.DisposeLogsAll | src/virtual_tun/smol_stack.rs:57-68 | proof helper: dropping a live socket's remaining blobs completes the log: it then holds the drop of every blob ever sent, each once |
| SmolSockets.SmolSocket.constructor | src/virtual_tun/smol_stack.rs:95-110 | a new socket has empty queues, no resumption slot and no endpoint, and an empty history |
| SmolSockets.SmolSocket.Send | src/virtual_tun/smol_stack.rs:112-124 | panics exactly for a UDP or ICMP packet without an endpoint, changing nothing; otherwise the packet goes to the back of `to_send`, `has_data` is notified once, 0 is returned and the history invariant is kept |
| SmolSockets.SmolSocket.PushBack | src/virtual_tun/smol_stack.rs:119 | a packet goes to the back of `to_send` and of the history, and the history invariant is kept |
| SmolSockets.SmolSocket.Receive | src/virtual_tun/smol_stack.rs:127-154 | returns 0 with exactly the front chunk and pops it, or 1 with nothing when nothing was received |
| SmolSockets.SmolSocket.GetLatestPacket | src/virtual_tun/smol_stack.rs:212-226 | returns and clears the resumption slot when it is set, leaving `to_send` alone; otherwise pops the front of `to_send`; None exactly when both are empty; no pending byte is lost or reordered |
| SmolSockets.SmolSocket.SpinTcpArm | src/virtual_tun/smol_stack.rs:538-611 | the TCP arm, statement by statement, leaves the queues as the spin function says, extends the byte and drop histories by what that spin takes, hands over and drops, notifies once per received chunk, and keeps the history invariant |
| SmolSockets.SmolSocket.Dispose | src/virtual_tun/smol_stack.rs:70-92 | dropping a socket drops every blob still in `to_send`, then the one in `current_to_send`; afterwards every blob ever sent has been dropped exactly once |
| SmolStacks.IssuedKeys | src/virtual_tun/smol_stack.rs:287-291 | after n calls the handles returned are 1, 2, ..., n |
| SmolStacks.IssuedKeysIncrease | src/virtual_tun/smol_stack.rs:268 | the handles issued are strictly increasing, so pairwise distinct, and all at least 1 |
| SmolStacks.IssuedKeysStep | src/virtual_tun/smol_stack.rs:287-291 | one more call extends the issued handles by the next number |
| SmolStacks.MaxPrefix | src/virtual_tun/smol_stack.rs:462-474 | the longest prefix is 32 exactly for IPv4 and 128 exactly for IPv6 |
| SmolStacks.SmolStack.constructor | src/virtual_tun/smol_stack.rs:257-280 | a new stack has no sockets, the counter at 0, the device and an empty address list, no gateway and no interface, and shares the given queues and `has_data` |
| SmolStacks.SmolStack.GetSmolSocket | src/virtual_tun/smol_stack.rs:282-285 | returns the socket under the handle exactly when there is one |
| SmolStacks.SmolStack.NewSocketHandleKey | src/virtual_tun/smol_stack.rs:287-291 | increments the counter and returns its new value, so the first key is 1 and each key is larger than every key before it |
| SmolStacks.SmolStack.AddSocket | src/virtual_tun/smol_stack.rs:293-334 | TCP or UDP: adds an engine socket of that kind and a fresh socket under the handle, with empty queues, no endpoint, no notification and an empty history, replacing and dropping any socket already there along with its blobs, and returns 0; any other kind panics and changes nothing, neither the table nor the socket already under the handle |
| SmolStacks.SmolStack.AddEngineSocket | src/virtual_tun/smol_stack.rs:299 | `sockets.add` appends an engine socket and returns its handle |
| SmolStacks.SmolStack.Evict | src/virtual_tun/smol_stack.rs:301 | the socket `insert` replaces leaves the table and drops every blob it still holds |
| SmolStacks.SmolStack.Install | src/virtual_tun/smol_stack.rs:300-301 | a fresh socket for the new engine socket, with empty queues, no endpoint, no notification and an empty history, is filed under the handle; no other entry changes |
| SmolStacks.SmolStack.TcpConnect | src/virtual_tun/smol_stack.rs:336-372 | panics on an unknown handle or a non-TCP engine socket; otherwise records the endpoint whatever the engine answers, notifies once, and returns 0 on success and 2 on an engine error |
| SmolStacks.SmolStack.MaySend | src/virtual_tun/smol_stack.rs:374-396 | panics on an unknown handle or a non-TCP socket; for TCP returns 0 exactly when the engine may send, and 1 otherwise |
| SmolStacks.SmolStack.AddIpAddress | src/virtual_tun/smol_stack.rs:462-474 | appends the address at the end of the list, in call order; panics after `finalize` or for a prefix too long for the address, changing nothing |
| SmolStacks.SmolStack.AddIpv4Address | src/virtual_tun/smol_stack.rs:462-467 | the same, for an IPv4 address with a prefix of at most 32 |
| SmolStacks.SmolStack.AddIpv6Address | src/virtual_tun/smol_stack.rs:469-474 | the same, for an IPv6 address with a prefix of at most 128 |
| SmolStacks.SmolStack.AddDefaultV4Gateway | src/virtual_tun/smol_stack.rs:476-478 | sets the IPv4 gateway, replacing any earlier one |
| SmolStacks.SmolStack.AddDefaultV6Gateway | src/virtual_tun/smol_stack.rs:480-482 | sets the IPv6 gateway, replacing any earlier one |
| SmolStacks.SmolStack.Finalize | src/virtual_tun/smol_stack.rs:484-500 | succeeds exactly when both gateways are set and the device is still present; it then moves the device and address list into an interface with both default routes, so both become None and a second call panics; otherwise it panics and changes nothing |
| SmolStacks.SmolStack.Spin | src/virtual_tun/smol_stack.rs:535-619 | panics on an unknown handle, and for a non-TCP socket with that socket unchanged; for TCP returns 0 and leaves that socket as one spin says: its queues, one receive notification when a chunk arrived, the bytes taken off and handed over appended to its histories, the drop of the Blob it releases appended to its drop log, nothing new enqueued; every other socket and every endpoint stay as they were |
| SmolStacks.SmolStack.SpinTcpSocket | src/virtual_tun/smol_stack.rs:538-611 | the TCP arm on the socket under the handle changes only its queues and histories: the queues one spin gives, the bytes it takes and hands over, the drops of the blobs it releases; the stack invariant is kept |
| SmolStacks.SmolStack.SnapshotHandles | src/virtual_tun/smol_stack.rs:521-524 | the copied handles are exactly the table's handles, each once |
| SmolStacks.SmolStack.SpinAll | src/virtual_tun/smol_stack.rs:518-529 | returns 0 exactly when every socket in the table is TCP, and then every socket has been spun exactly once against its own engine answers, its queues, handed bytes and drop log extended as that spin says; otherwise it panics as not implemented; either way every socket is either untouched or spun once, and none changes its endpoint or gains an enqueued packet |
| SmolStacks.SmolStack.SpinEach | src/virtual_tun/smol_stack.rs:525-527 | spinning each copied handle in turn: 0 means every handle is TCP and every socket was spun once, with its queues, handed bytes and drop log as that spin says; a panic means some handle is not TCP; every socket is either untouched or spun once |
| SmolStacks.SmolStack.Send | src/virtual_tun/smol_stack.rs:624-632 | appends the Blob at the back of the device's inbound queue, notifies once and returns 0; panics without such a queue |
| SmolStacks.SmolStack.ReceiveInstantly | src/virtual_tun/smol_stack.rs:689-725 | pops the oldest outbound frame and returns 0 with exactly its bytes, notifying once; returns 1 with nothing when no frame waits; panics without such a queue |
| SmolStacks.SmolStack.ReceiveWait | src/virtual_tun/smol_stack.rs:641-683 | the same as `receive_instantly`: it does not wait |
| Net.Signal.NotifyAll | src/virtual_tun/smol_stack.rs:122 | each `notify_all` adds exactly one notification |
| VirtualTun.FrameQueue.PushBack | src/virtual_tun/virtual_tun.rs:127 | a frame joins the back of the outbound queue |
| VirtualTun.FrameQueue.PopFront | src/virtual_tun/smol_stack.rs:700 | the oldest frame leaves the queue, or None when it is empty |
| VirtualTun.BlobQueue.PushBack | src/virtual_tun/smol_stack.rs:627 | a Blob joins the back of the inbound queue, which stays first in, first out |
| VirtualTun.BlobQueue.PopFront | src/virtual_tun/virtual_tun.rs:51 | the oldest Blob leaves the queue, or None when it is empty; the queue stays first in, first out |
| VirtualTun.CopyToFront | src/virtual_tun/virtual_tun.rs:53 | the frame overwrites the front of the buffer and every byte after it stays as it was |
| VirtualTun.RecvAsWritten | src/virtual_tun/virtual_tun.rs:50-58 | as written, `recv` succeeds only for a frame exactly as long as the buffer |
| VirtualTun.ShortFramePanicsAsWritten | src/virtual_tun/virtual_tun.rs:53 | as written, a 60-byte frame makes `recv` panic on a 1500-byte buffer |
| VirtualTun.VirtualTunInterface.constructor | src/virtual_tun/virtual_tun.rs:36-48 | the MTU is 1500 and both queues are the given ones |
| VirtualTun.VirtualTunInterface.Recv | src/virtual_tun/virtual_tun.rs:50-58 | pops the oldest Blob, logs it as popped, drops it, copies its bytes to the front of the buffer and returns their count, leaving the rest of the buffer alone; a frame longer than the buffer panics; an empty queue gives `Err(1)` and changes nothing; the queue's push history is kept |
| VirtualTun.VirtualTunInterface.Capabilities | src/virtual_tun/virtual_tun.rs:65-69 | the reported MTU is the device's and the burst size is unset, the two capability fields the model keeps |
| VirtualTun.VirtualTunInterface.Medium | src/virtual_tun/virtual_tun.rs:93-95 | the medium is always IP |
| VirtualTun.VirtualTunInterface.Receive | src/virtual_tun/virtual_tun.rs:71-85 | None exactly when no frame waits, with the queue unchanged; otherwise the receive token holds exactly the oldest Blob's bytes, never more than the MTU, and that Blob is popped, logged as popped and dropped; the queue's push history is kept |
| VirtualTun.VirtualTunInterface.Transmit | src/virtual_tun/virtual_tun.rs:87-91 | a transmit token on the device itself is always returned, and no queue changes |
| VirtualTun.RxToken.Consume | src/virtual_tun/virtual_tun.rs:104-109 | the closure gets the received frame unchanged, and its result is returned |
| VirtualTun.TxToken.Consume | src/virtual_tun/virtual_tun.rs:118-129 | the closure fills a zeroed buffer of `len` bytes, which goes to the back of the outbound queue whatever the closure returns; its result is returned |
| Loopback.InjectThenReceive | src/virtual_tun/smol_stack.rs:624-632 | a Blob given to the stack's `send` on an empty queue is exactly the frame the device's `receive` hands the engine, and it is dropped once |
| Loopback.TransmitThenCollect | src/virtual_tun/smol_stack.rs:689-725 | a frame the engine writes through a transmit token is exactly what `receive_instantly` then returns, with code 0 |

## Left out

- The protocol engine itself (smoltcp's `Interface::poll`, the `TcpSocket` state machine, `InterfaceBuilder`, `Routes`, `Instant::now`) is an oracle. `SmolStack::poll`, `phy_wait` and `phy_wait_timeout` are not part of this model.
- Engine.SendSlice: smoltcp's `send_slice` takes as many bytes as its send buffer has room for; the model states this through a `room` value and does not model the buffer.
- Condition variables: waiting is not modelled. A `notify_all` is a ghost counter. `has_data` is always present; the source unwraps it and would panic without it. The blocking `SmolSocket::receive_wait` is left out, because it only waits on its condition variable and then does what `receive` does.
- SmolStacks.SmolStack.ReceiveWait: its contract does not state the notification count; it delegates to `ReceiveInstantly`, whose contract does.
- `Arc<Mutex<...>>` locking, threads and lock poisoning. Each queue is plain sequential state.
- The deprecated `tcp_connect_ipv4` / `tcp_connect_ipv6`.
- The UDP, ICMP and raw-socket arms of `spin` and `may_send`, which panic as not implemented, and the commented-out raw-socket arms of `add_socket`.
- FFI marshalling: `CBuffer`, `allocate_function` and the raw pointers. The received bytes are returned as a sequence, and the `CIpAddress` out-parameter, which the source never fills, is dropped.
- Ports and the file descriptor `fd`, which are only passed through to the engine or stored. Socket buffer sizes (65000 bytes for TCP, 1024 for UDP) belong to the engine.
- `usize` overflow of the handle counter and of offsets. Integers are unbounded.
- SmolStacks.SmolStack.AddIpAddress: the prefix check stands for the assertion inside smoltcp's `IpCidr::new`; other address validation is not modelled.
- SmolStacks.SmolStack.AddSocket: the engine socket of a replaced socket stays in the engine's socket set, as in the source; the model records the drop of the replaced socket before the new socket is filed, and the order of the two effects is not observable.
- SmolStacks.SmolStack.SnapshotHandles: the iteration order of the `HashMap` is left open; the model proves its results for any order.
- SmolStacks.SmolStack.SpinAll: when a socket of a kind `spin` does not implement ends the call with the panic, the sockets before it in the order have been spun; the contract says only that each socket is either untouched or spun once, not which.
- VirtualTun.VirtualTunInterface.Recv: the copy takes the whole `data` of the Blob and ignores its `start`, as the source does.
- VirtualTun.VirtualTunInterface.Capabilities: smoltcp's `DeviceCapabilities` also carries checksum capabilities, which the source leaves at their defaults; the model keeps only the MTU and the burst size.
- `VirtualTunInterface` clones share both queues, so a token's device is the device itself.
- Blobs.Drop: a Blob with a destructor always carries an owner, so the `unwrap` panic at src/virtual_tun/smol_stack.rs:62 is excluded by the Blob type. The repository's one caller, `http_smol_tcp_tun_example.cpp` (lines 81-83), passes the owner with the destructor; the FFI entry that builds Blobs is not part of this model.
- Blob destructors are foreign code. The model records each call, with its arguments, in a ghost log and does not run it.

## Findings

| source | as written | input that shows it | evidently intended | confidence | as-written member | corrected member |
|---|---|---|---|---|---|---|
| src/virtual_tun/smol_stack.rs:557-560 | a send counts as partial when fewer bytes than the whole data were sent, and the new offset is the data length minus the count sent | a 10-byte Blob: 3 bytes sent from offset 0 resume at offset 7, so bytes 3 to 6 are never sent; 3 bytes sent from offset 7 count as partial and resume at 7 again | compare with the unsent bytes and advance the offset by the count sent (the comments at lines 546-547 and 553-555) | high, not executed | Blobs.ResumeAsWrittenSkipsBytes | SmolSockets.SpinSendsFromOffset |
| src/virtual_tun/smol_stack.rs:576-581 | `process::exit(1)` runs before the packet is stored back, so every partial send ends the process | any packet the engine takes only part of, e.g. 3 of 10 bytes | store the packet back in `current_to_send` and resume it on the next spin | high, not executed | SmolSockets.PartialSendExitsAsWritten | SmolSockets.SpinFollowsIntendedOutcome |
| src/virtual_tun/virtual_tun.rs:53 | `copy_from_slice` copies the frame into the whole 1500-byte buffer, which panics unless the frame is exactly 1500 bytes long | a 60-byte frame | copy the frame into the front of the buffer; `receive` then cuts the buffer to the returned length | high, not executed | VirtualTun.ShortFramePanicsAsWritten | VirtualTun.VirtualTunInterface.Recv |

