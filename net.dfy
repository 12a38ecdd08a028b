/**
 * Shared vocabulary of the socket-multiplexing layer: bytes, IP addresses and
 * endpoints, the socket kinds, and how a call that can panic is reported.
 */
module Net {

  newtype byte = x: int | 0 <= x < 256

  /** A 4-byte IPv4 address. */
  type Ipv4Address = s: seq<byte> | |s| == 4 witness [0, 0, 0, 0]

  /** A 16-byte IPv6 address. */
  type Ipv6Address = s: seq<byte> | |s| == 16 witness seq(16, _ => 0)

  datatype IpAddress = Ipv4(v4: Ipv4Address) | Ipv6(v6: Ipv6Address)

  /** An address with a prefix length, as handed to `add_ipv4_address` / `add_ipv6_address`. */
  datatype IpCidr = IpCidr(address: IpAddress, prefix: nat)

  /** An address and a port: the destination of a connectionless packet. */
  datatype IpEndpoint = IpEndpoint(address: IpAddress, port: nat)

  datatype SocketType = RawIpv4 | RawIpv6 | Icmp | Tcp | Udp

  datatype Family = V4 | V6

  datatype Option<T> = None | Some(value: T)

  /**
   * Why a call panics. The source aborts with `panic!`, `unwrap()` on a
   * `None`, or a failed slice operation; the model reports which.
   */
  datatype Fault =
    | UnknownHandle          // `unwrap()` / `panic!("NO smol socket")` on a missing socket handle
    | UnsupportedSocketType  // `panic!("wrong choice for socket type")` in add_socket
    | NotImplemented         // `panic!("not implemented yet")` for UDP/ICMP/RAW arms
    | MissingEndpoint        // connectionless send without an endpoint
    | WrongSocketType        // the engine socket behind the handle is not a TCP socket
    | MissingGateway(family: Family)
    | AlreadyFinalized       // device / address list already taken by finalize
    | InvalidPrefix          // prefix longer than the address family allows
    | NotVirtualTun          // a virtual-device queue is absent on this stack
    | FrameLengthMismatch    // `copy_from_slice` between slices of different lengths
    | FrameTooLong           // a frame longer than the device buffer

  /** The result of a call that either returns `value` or panics with `fault`. */
  datatype Outcome<T> = Ok(value: T) | Panic(fault: Fault)

  /**
   * The condition variable behind an `Arc<(Mutex<()>, Condvar)>`. Waiting is
   * not modelled; only the number of `notify_all` calls is kept.
   */
  class Signal {
    ghost var notifications: nat

    constructor ()
      ensures notifications == 0
    {
      notifications := 0;
    }

    method NotifyAll()
      modifies this
      ensures notifications == old(notifications) + 1
    {
      notifications := notifications + 1;
    }
  }

  /** All-zero buffer of length `n`, as `vec![0; n]` builds it. */
  function Zeros(n: nat): (z: seq<byte>)
    ensures |z| == n && forall i :: 0 <= i < n ==> z[i] == 0
  {
    seq(n, _ => 0)
  }
}
