/** Flow keys and values (src/flow.rs) and the direction rule (src/direction.rs). */
module Flows {
  import opened Basics

  type Ipv4 = o: seq<byte> | |o| == 4 witness [0, 0, 0, 0]
  type Ipv6 = o: seq<byte> | |o| == 16 witness [0, 0, 0, 0, 0, 0, 0, 0, 0, 0, 0, 0, 0, 0, 0, 0]
  type Mac = o: seq<byte> | |o| == 6 witness [0, 0, 0, 0, 0, 0]

  const IPV4_UNSPECIFIED: Ipv4 := [0, 0, 0, 0]
  const IPV6_UNSPECIFIED: Ipv6 := [0, 0, 0, 0, 0, 0, 0, 0, 0, 0, 0, 0, 0, 0, 0, 0]
  const IPV6_LOOPBACK: Ipv6 := [0, 0, 0, 0, 0, 0, 0, 0, 0, 0, 0, 0, 0, 0, 0, 1]
  const MAC_ZERO: Mac := [0, 0, 0, 0, 0, 0]

  datatype IpAddr = IpV4(v4: Ipv4) | IpV6(v6: Ipv6) {
    predicate IsLoopback() {
      match this
      case IpV4(o) => o[0] == 127
      case IpV6(o) => o == IPV6_LOOPBACK
    }
  }

  datatype SocketAddr = SocketAddr(ip: IpAddr, port: u16)

  datatype FlowAddrs =
    | V4(src4: Ipv4, dst4: Ipv4)
    | V6(src6: Ipv6, dst6: Ipv6)
  {
    function Src(): IpAddr {
      match this
      case V4(src, _) => IpV4(src)
      case V6(src, _) => IpV6(src)
    }

    function Dst(): IpAddr {
      match this
      case V4(_, dst) => IpV4(dst)
      case V6(_, dst) => IpV6(dst)
    }
  }

  const UDP_NUMBER: byte := 17

  /** The packet parser's protocols. Only UDP is named by the agent; any other protocol is told apart by a
      tag and carries whatever IANA number, if any, the parser gives it. */
  datatype Protocol = Udp | Other(tag: nat, iana: Option<byte>) {
    function Number(): Option<byte> {
      match this
      case Udp => Some(UDP_NUMBER)
      case Other(_, n) => n
    }
  }

  datatype FlowKey = FlowKey(addrs: FlowAddrs, srcPort: Option<u16>, dstPort: Option<u16>, protocol: Protocol) {
    predicate IsSelfExport(collector: SocketAddr) {
      && protocol == Udp
      && addrs.Dst() == collector.ip
      && dstPort == Some(collector.port)
    }
  }

  /** The filter catches exactly UDP from anywhere to the collector's address and port. */
  lemma {:induction false} SelfExportIff(key: FlowKey, ip: IpAddr, port: u16)
    ensures key.IsSelfExport(SocketAddr(ip, port))
       <==> && key.protocol == Udp && key.dstPort == Some(port)
            && ((key.addrs.V4? && ip == IpV4(key.addrs.dst4)) || (key.addrs.V6? && ip == IpV6(key.addrs.dst6)))
  {
  }

  datatype FlowDirection = Incoming | Outgoing

  datatype FlowVal = FlowVal(
    bytes: u64,
    packets: u64,
    srcMac: Option<Mac>,
    dstMac: Option<Mac>,
    vlanId: Option<u16>,
    etherType: u16,
    direction: Option<FlowDirection>,
    firstSeenMs: u64,
    lastSeenMs: u64)
  {
    function WithDirection(key: FlowKey, myAddresses: seq<IpAddr>): FlowVal {
      this.(direction := GetDirection(key.addrs.Src(), key.addrs.Dst(), key.srcPort, key.dstPort, myAddresses))
    }
  }

  /** A key with its value: one packet on the way into the table, one aggregated flow on the way out. */
  datatype Flow = Flow(key: FlowKey, val: FlowVal)

  function GetDirection(src: IpAddr, dst: IpAddr, srcPort: Option<u16>, dstPort: Option<u16>,
                        myAddresses: seq<IpAddr>): Option<FlowDirection>
  {
    if src.IsLoopback() && dst.IsLoopback() && srcPort.Some? && dstPort.Some? then
      Some(if srcPort.value > dstPort.value then Outgoing else Incoming)
    else if myAddresses == [] then None
    else if src in myAddresses then Some(Outgoing)
    else if src != IpV4(IPV4_UNSPECIFIED) && src != IpV6(IPV6_UNSPECIFIED) then Some(Incoming)
    else if dst !in myAddresses then Some(Outgoing)
    else Some(Incoming)
  }

  /** The loopback addresses: 127.0.0.0/8 and ::1. */
  predicate Loopback(ip: IpAddr) {
    (ip.IpV4? && ip.v4[0] == 127) || ip == IpV6([0, 0, 0, 0, 0, 0, 0, 0, 0, 0, 0, 0, 0, 0, 0, 1])
  }

  /** The all-zero addresses. */
  predicate Unspecified(ip: IpAddr) {
    ip == IpV4([0, 0, 0, 0]) || ip == IpV6([0, 0, 0, 0, 0, 0, 0, 0, 0, 0, 0, 0, 0, 0, 0, 0])
  }

  /** The direction of a flow from `src` to `dst`. Between two loopback addresses with both ports known, the
      greater port is the sender's own; otherwise, without interface addresses nothing is known, a local source or
      an unspecified source with a foreign destination means outgoing, and everything else is incoming. */
  ghost predicate RightDirection(src: IpAddr, dst: IpAddr, srcPort: Option<u16>, dstPort: Option<u16>,
                                 mine: seq<IpAddr>, d: Option<FlowDirection>)
  {
    var looped := Loopback(src) && Loopback(dst) && srcPort != None && dstPort != None;
    && (d == None <==> !looped && mine == [])
    && (d == Some(Outgoing) <==>
          if looped then srcPort.value > dstPort.value
          else mine != [] && (src in mine || (Unspecified(src) && dst !in mine)))
  }

  lemma {:induction false} DirectionIsRight(src: IpAddr, dst: IpAddr, srcPort: Option<u16>, dstPort: Option<u16>,
                                            mine: seq<IpAddr>)
    ensures RightDirection(src, dst, srcPort, dstPort, mine, GetDirection(src, dst, srcPort, dstPort, mine))
  {
    assert src.IsLoopback() == Loopback(src) && dst.IsLoopback() == Loopback(dst);
  }

  /** Two ends of one conversation: where the rule can tell the sides apart, the replies go the other way. */
  lemma {:induction false} RepliesGoTheOtherWay(src: IpAddr, dst: IpAddr, srcPort: Option<u16>, dstPort: Option<u16>,
                                                mine: seq<IpAddr>)
    requires !Unspecified(src) && !Unspecified(dst)
    requires if Loopback(src) && Loopback(dst) && srcPort != None && dstPort != None then srcPort != dstPort
             else (src in mine) != (dst in mine)
    ensures var there := GetDirection(src, dst, srcPort, dstPort, mine);
            var back := GetDirection(dst, src, dstPort, srcPort, mine);
            there != None && back == Some(if there == Some(Outgoing) then Incoming else Outgoing)
  {
    DirectionIsRight(src, dst, srcPort, dstPort, mine);
    DirectionIsRight(dst, src, dstPort, srcPort, mine);
  }

  /** What is exported of a table's entry: every field as it is, and the direction from the key's source and
      destination. */
  ghost predicate Annotated(after: FlowVal, before: FlowVal, key: FlowKey, mine: seq<IpAddr>) {
    && after.bytes == before.bytes && after.packets == before.packets
    && after.srcMac == before.srcMac && after.dstMac == before.dstMac && after.vlanId == before.vlanId
    && after.etherType == before.etherType
    && after.firstSeenMs == before.firstSeenMs && after.lastSeenMs == before.lastSeenMs
    && (key.addrs.V4? ==> RightDirection(IpV4(key.addrs.src4), IpV4(key.addrs.dst4), key.srcPort, key.dstPort, mine,
                                         after.direction))
    && (key.addrs.V6? ==> RightDirection(IpV6(key.addrs.src6), IpV6(key.addrs.dst6), key.srcPort, key.dstPort, mine,
                                         after.direction))
  }

  lemma {:induction false} WithDirectionAnnotates(val: FlowVal, key: FlowKey, mine: seq<IpAddr>)
    ensures Annotated(val.WithDirection(key, mine), val, key, mine)
  {
    DirectionIsRight(key.addrs.Src(), key.addrs.Dst(), key.srcPort, key.dstPort, mine);
  }
}
