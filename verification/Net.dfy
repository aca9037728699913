/** Bytes, ports and addresses, as `std::net` has them. */
module Net {
  type u8 = x: int | 0 <= x < 0x100
  type u16 = x: int | 0 <= x < 0x1_0000

  type Ipv4 = s: seq<u8> | |s| == 4 witness [0, 0, 0, 0]
  type Ipv6 = s: seq<u8> | |s| == 16 witness seq(16, _ => 0)

  datatype IpAddr = V4(v4: Ipv4) | V6(v6: Ipv6) {
    function Octets(): seq<u8> {
      match this
      case V4(octets) => octets
      case V6(octets) => octets
    }

    predicate IsUnspecified() {
      forall i | 0 <= i < |Octets()| :: Octets()[i] == 0
    }

    predicate IsMulticast() {
      match this
      case V4(octets) => 224 <= octets[0] <= 239
      case V6(octets) => octets[0] == 255
    }
  }

  predicate SameFamily(a: IpAddr, b: IpAddr) {
    a.V4? <==> b.V4?
  }

  datatype SocketAddr = SocketAddr(ip: IpAddr, port: u16)

  /** The identity of one `connect` call. */
  type RequestId = nat

  /** What a SOCKS client asks to reach. Host names are kept as the bytes received. */
  datatype Target = Ip(ip: IpAddr) | Domain(name: seq<u8>)

  /** The `io::ErrorKind`s the repository produces. */
  datatype ErrorKind =
    | NotConnected
    | NetworkUnreachable
    | HostUnreachable
    | NotFound
    | TimedOut
    | ConnectionRefused
    | InvalidInput
    | Other
}
