/**
 * Blob and Packet: a byte buffer handed in by the foreign caller, with a
 * "bytes already sent" offset and an optional one-shot destructor that runs
 * when the Blob is dropped.
 */
module Blobs {
  import opened Net

  /** Address of the foreign object that owns the bytes (`pointer_to_owner`). */
  type Owner = nat

  /** Identity of the foreign destructor function (`pointer_to_destructor`). */
  type Destructor = nat

  datatype RawBlob = RawBlob(
    data: seq<byte>,
    start: nat,
    pointerToOwner: Option<Owner>,
    pointerToDestructor: Option<Destructor>)

  /**
   * A Blob never has its offset past its data: the send path slices
   * `data[start..]`, which would panic otherwise. A Blob with a destructor
   * also has an owner to pass it: `drop` unwraps the owner pointer.
   */
  type Blob = b: RawBlob | b.start <= |b.data| && (b.pointerToDestructor.Some? ==> b.pointerToOwner.Some?)
    witness RawBlob([], 0, None, None)

  /** A Blob plus the destination that connectionless sockets need. */
  datatype Packet = Packet(blob: Blob, endpoint: Option<IpEndpoint>)

  /** What dropping a Blob does to the outside world. */
  datatype DropAction =
    | Destroyed(destructor: Destructor, owner: Owner)  // the destructor was called with the owner
    | NoDestructor                                     // nothing to call

  /** `impl Drop for Blob`: call the destructor, if any, with the owner pointer. */
  function Drop(b: Blob): (a: DropAction)
    ensures a.Destroyed? <==> b.pointerToDestructor.Some?
    ensures a.Destroyed? ==> a.destructor == b.pointerToDestructor.value && a.owner == b.pointerToOwner.value
    ensures a == NoDestructor <==> b.pointerToDestructor.None?
  {
    match b.pointerToDestructor
    case None => NoDestructor
    case Some(f) => Destroyed(f, b.pointerToOwner.value)
  }

  /** What dropping each of these blobs does, in order. */
  function DropAll(bs: seq<Blob>): seq<DropAction>
  {
    if bs == [] then [] else [Drop(bs[0])] + DropAll(bs[1..])
  }

  lemma {:induction false} DropAllAppend(bs: seq<Blob>, b: Blob)
    ensures DropAll(bs + [b]) == DropAll(bs) + [Drop(b)]
  {
    if bs == [] {
      assert bs + [b] == [b];
    } else {
      assert (bs + [b])[1..] == bs[1..] + [b];
      DropAllAppend(bs[1..], b);
    }
  }

  /** The bytes of a packet not yet handed to the engine. */
  function Remaining(p: Packet): seq<byte>
  {
    p.blob.data[p.blob.start..]
  }

  /**
   * The packet to resume from after the engine accepted `sent` of its
   * remaining bytes: the offset advances by `sent`.
   */
  function Resume(p: Packet, sent: nat): (q: Packet)
    requires sent <= |Remaining(p)|
    ensures Remaining(p)[..sent] + Remaining(q) == Remaining(p)
    ensures |Remaining(q)| == |Remaining(p)| - sent
    ensures q.blob.data == p.blob.data && q.endpoint == p.endpoint
    ensures Drop(q.blob) == Drop(p.blob)
  {
    var q := p.(blob := p.blob.(start := p.blob.start + sent));
    assert Remaining(q) == Remaining(p)[sent..];
    q
  }

  /** The test at smol_stack.rs:557, as written: against the whole data length. */
  predicate PartialAsWritten(p: Packet, sent: nat)
    ensures sent < |Remaining(p)| ==> PartialAsWritten(p, sent)
  {
    sent < |p.blob.data|
  }

  /** The offset stored at smol_stack.rs:558-560, as written: the count of unsent bytes. */
  function ResumeAsWritten(p: Packet, sent: nat): (q: Packet)
    requires PartialAsWritten(p, sent)
    ensures q.blob.start == |p.blob.data| - sent
    ensures q.blob.data == p.blob.data
  {
    p.(blob := p.blob.(start := |p.blob.data| - sent))
  }

  /** Ten bytes 0..9 from a caller that registered no destructor. */
  function TenBytes(start: nat): Packet
    requires start <= 10
  {
    Packet(RawBlob([0, 1, 2, 3, 4, 5, 6, 7, 8, 9], start, None, None), None)
  }

  /**
   * As written, a first partial send of 3 of 10 bytes resumes at offset 7:
   * bytes 3..6 are never handed to the engine.
   */
  lemma ResumeAsWrittenSkipsBytes()
    ensures PartialAsWritten(TenBytes(0), 3)
    ensures Remaining(ResumeAsWritten(TenBytes(0), 3)) == [7, 8, 9]
    ensures Remaining(TenBytes(0))[..3] + Remaining(ResumeAsWritten(TenBytes(0), 3)) != Remaining(TenBytes(0))
  {
    var p := TenBytes(0);
    var q := ResumeAsWritten(p, 3);
    assert Remaining(q) == p.blob.data[7..];
    assert |Remaining(p)[..3] + Remaining(q)| == 6;
  }

  /**
   * As written, once the offset is 7, sending the last 3 bytes in full is
   * still taken for a partial send, and the offset stays at 7: the same
   * bytes would be handed to the engine again.
   */
  lemma ResumeAsWrittenRepeatsTail()
    ensures |Remaining(TenBytes(7))| == 3
    ensures PartialAsWritten(TenBytes(7), 3)
    ensures Remaining(ResumeAsWritten(TenBytes(7), 3)) == Remaining(TenBytes(7))
  {
  }
}
