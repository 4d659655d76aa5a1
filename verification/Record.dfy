/** Data records: what a flow looks like on the wire, the writer (src/ipfix/encode.rs), and what a collector
    reads back from the Information Elements. */
module Records {
  import opened Basics
  import opened BigEndian
  import opened Buffer
  import opened Flows
  import opened InformationElements
  import opened Templates

  const DIRECTION_UNKNOWN: byte := 0xFF

  datatype WireKey = WireKey(addrs: FlowAddrs, srcPort: u16, dstPort: u16, protocol: byte)

  /** A flow up to what a record can carry. */
  datatype WireFlow = WireFlow(
    key: WireKey,
    srcMac: Mac,
    dstMac: Mac,
    vlanId: u16,
    etherType: u16,
    direction: byte,
    bytes: u64,
    packets: u64,
    firstSeenMs: u64,
    lastSeenMs: u64)

  function ProjectKey(key: FlowKey): WireKey {
    WireKey(key.addrs, key.srcPort.GetOr(0), key.dstPort.GetOr(0), key.protocol.Number().GetOr(0))
  }

  function ProjectDirection(direction: Option<FlowDirection>): byte {
    match direction
    case Some(Incoming) => 0x00
    case Some(Outgoing) => 0x01
    case None => DIRECTION_UNKNOWN
  }

  /** Absent port, protocol number, MAC or VLAN becomes 0; absent direction becomes 0xFF. */
  function Project(flow: Flow): WireFlow {
    var v := flow.val;
    WireFlow(ProjectKey(flow.key), v.srcMac.GetOr(MAC_ZERO), v.dstMac.GetOr(MAC_ZERO), v.vlanId.GetOr(0),
             v.etherType, ProjectDirection(v.direction), v.bytes, v.packets, v.firstSeenMs, v.lastSeenMs)
  }

  function ProjectAll(flows: seq<Flow>): (ws: seq<WireFlow>)
    ensures |ws| == |flows|
  {
    seq(|flows|, i requires 0 <= i < |flows| => Project(flows[i]))
  }

  // ---- The layout of a record -------------------------------------------------------------------------

  function TemplateFields(addrs: FlowAddrs): seq<Field> {
    if addrs.V4? then V4_FIELDS else V6_FIELDS
  }

  function AddressElements(addrs: FlowAddrs): seq<Information> {
    match addrs
    case V4(src, dst) =>
      [Information(IE_SOURCE_IPV4_ADDRESS, src), Information(IE_DESTINATION_IPV4_ADDRESS, dst)]
    case V6(src, dst) =>
      [Information(IE_SOURCE_IPV6_ADDRESS, src), Information(IE_DESTINATION_IPV6_ADDRESS, dst)]
  }

  function CommonElements(w: WireFlow): seq<Information> {
    [
      Information(IE_SOURCE_TRANSPORT_PORT, ToBytes(w.key.srcPort, 2)),
      Information(IE_DESTINATION_TRANSPORT_PORT, ToBytes(w.key.dstPort, 2)),
      Information(IE_PROTOCOL_IDENTIFIER, [w.key.protocol]),
      Information(IE_SOURCE_MAC_ADDRESS, w.srcMac),
      Information(IE_DESTINATION_MAC_ADDRESS, w.dstMac),
      Information(IE_DOT1Q_VLAN_ID, ToBytes(w.vlanId, 2)),
      Information(IE_ETHERNET_TYPE, ToBytes(w.etherType, 2)),
      Information(IE_FLOW_DIRECTION, [w.direction]),
      Information(IE_LAYER2_OCTET_DELTA_COUNT, ToBytes(w.bytes, 8)),
      Information(IE_PACKET_DELTA_COUNT, ToBytes(w.packets, 8)),
      Information(IE_FLOW_START_MILLISECONDS, ToBytes(w.firstSeenMs, 8)),
      Information(IE_FLOW_END_MILLISECONDS, ToBytes(w.lastSeenMs, 8))]
  }

  /** The named Information Elements of a flow, in template order. */
  function Elements(w: WireFlow): seq<Information> {
    AddressElements(w.key.addrs) + CommonElements(w)
  }

  lemma {:induction false} TemplateDescribesElements(w: WireFlow)
    ensures Describes(TemplateFields(w.key.addrs), Elements(w))
  {
    assert Describes(COMMON_FIELDS, CommonElements(w));
    var head := TemplateFields(w.key.addrs)[..2];
    assert Describes(head, AddressElements(w.key.addrs));
    DescribesConcat(head, COMMON_FIELDS, AddressElements(w.key.addrs), CommonElements(w));
    assert TemplateFields(w.key.addrs) == head + COMMON_FIELDS;
  }

  function RecordBytes(flow: Flow): seq<byte> {
    Octets(Elements(Project(flow)))
  }

  function RecordSize(addrs: FlowAddrs): u16 {
    if addrs.V4? then RECORD_SIZE_V4 else RECORD_SIZE_V6
  }

  /** The template describes the record: cutting what the writer produces at the announced lengths yields
      exactly the octets of every announced Information Element. */
  lemma {:induction false} TemplateDescribesRecord(flow: Flow)
    ensures |RecordBytes(flow)| == RecordSize(flow.key.addrs) == RecordLength(TemplateFields(flow.key.addrs))
    ensures CutFields(TemplateFields(flow.key.addrs), RecordBytes(flow)) == Elements(Project(flow))
  {
    RecordSizesMatchTemplates();
    TemplateDescribesElements(Project(flow));
    CutInvertsOctets(TemplateFields(flow.key.addrs), Elements(Project(flow)));
  }

  // ---- The writer -------------------------------------------------------------------------------------

  lemma {:induction false} AppendTwelve(base: seq<byte>, es: seq<Information>)
    requires |es| == 12
    ensures base + es[0].octets + es[1].octets + es[2].octets + es[3].octets + es[4].octets + es[5].octets
               + es[6].octets + es[7].octets + es[8].octets + es[9].octets + es[10].octets + es[11].octets
         == base + Octets(es)
  {
    forall i | 0 <= i < 12
      ensures base + Octets(es[..i]) + es[i].octets == base + Octets(es[..i + 1])
    {
      OctetsGrow(base, es, i);
    }
    assert base + Octets(es[..0]) == base;
    assert es[..12] == es;
  }

  method WriteCommonTail(out: ByteVec, key: FlowKey, val: FlowVal)
    modifies out
    ensures out.data == old(out.data) + Octets(CommonElements(Project(Flow(key, val))))
  {
    ghost var base, es := out.data, CommonElements(Project(Flow(key, val)));
    AppendTwelve(base, es);
    out.Extend(ToBytes(key.srcPort.GetOr(0), 2));
    out.Extend(ToBytes(key.dstPort.GetOr(0), 2));
    out.Extend([key.protocol.Number().GetOr(0)]);
    out.Extend(val.srcMac.GetOr(MAC_ZERO));
    out.Extend(val.dstMac.GetOr(MAC_ZERO));
    out.Extend(ToBytes(val.vlanId.GetOr(0), 2));
    out.Extend(ToBytes(val.etherType, 2));
    out.Extend([match val.direction
                case Some(Incoming) => 0x00
                case Some(Outgoing) => 0x01
                case None => 0xFF]);
    out.Extend(ToBytes(val.bytes, 8));
    out.Extend(ToBytes(val.packets, 8));
    out.Extend(ToBytes(val.firstSeenMs, 8));
    out.Extend(ToBytes(val.lastSeenMs, 8));
  }

  method WriteRecord(out: ByteVec, key: FlowKey, val: FlowVal)
    modifies out
    ensures out.data == old(out.data) + RecordBytes(Flow(key, val))
  {
    hide CommonElements;
    ghost var base, es := out.data, AddressElements(key.addrs);
    ghost var common := CommonElements(Project(Flow(key, val)));
    OctetsGrow(base, es, 0);
    OctetsGrow(base, es, 1);
    match key.addrs {
      case V4(src, dst) =>
        out.Extend(src);
        out.Extend(dst);
      case V6(src, dst) =>
        out.Extend(src);
        out.Extend(dst);
    }
    assert es[..2] == es;
    WriteCommonTail(out, key, val);
    OctetsConcat(es, common);
    ConcatAssoc(base, Octets(es), Octets(common));
  }
}
