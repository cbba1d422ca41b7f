/**
 * The settings snapshot a session reads (IProgramSettings): user name, password cipher,
 * router end point and the two interface names; and the IP address values it uses.
 */
module Settings {
  import opened Wrappers

  type byte = x: int | 0 <= x < 256
  type uint32 = x: int | 0 <= x < 0x1_0000_0000

  /**
   * An IP address: IPv4 as its 32-bit value in network byte order (a.b.c.d is
   * a * 2^24 + b * 2^16 + c * 2^8 + d), IPv6 as its 128-bit value.
   */
  datatype IpAddress = V4(bits: uint32) | V6(value: nat)

  const NoneAddress := V4(0xFFFF_FFFF)        // IPAddress.None, 255.255.255.255
  const AnyAddress := V4(0)                   // IPAddress.Any, 0.0.0.0
  const BroadcastAddress := V4(0xFFFF_FFFF)   // IPAddress.Broadcast, 255.255.255.255
  const LoopbackAddress := V4(0x7F00_0001)    // IPAddress.Loopback, 127.0.0.1
  const IPv6AnyAddress := V6(0)               // IPAddress.IPv6Any, ::
  const IPv6LoopbackAddress := V6(1)          // IPAddress.IPv6Loopback, ::1
  const IPv6NoneAddress := V6(0)              // IPAddress.IPv6None, ::

  const MinPort := 0        // IPEndPoint.MinPort
  const MaxPort := 0xFFFF   // IPEndPoint.MaxPort

  /** IPEndPoint: an address and a port. */
  datatype EndPoint = EndPoint(address: IpAddress, port: int)

  /** INetworkInterfaces: the names of the PPPoE uplink and of the Ethernet uplink. */
  datatype NetworkInterfaces = NetworkInterfaces(pppoeInterface: string, etherInterface: string)

  /** IProgramSettings as one immutable snapshot. */
  datatype ProgramSettings = ProgramSettings(
    userName: string,
    userPassword: seq<byte>,          // the encrypted password
    routerAddress: EndPoint,
    networkInterfaces: NetworkInterfaces)

  /** IPAddress.ToString and IPAddress.TryParse, which the model takes from the platform unexamined. */
  datatype AddressText = AddressText(format: IpAddress -> string, parse: string -> Option<IpAddress>)
}
