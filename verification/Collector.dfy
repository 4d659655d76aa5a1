/** An RFC 7011 collector, written from the standard: it knows no template in advance, learns templates from Template
    Sets alone, and cuts Data Sets by the learned field lengths. It shares the encoder's constants and types, and none
    of its writing. It is strict: it refuses padding, empty sets, enterprise and variable-length fields. */
module Collectors {
  import opened Basics
  import opened BigEndian
  import opened Flows
  import opened InformationElements
  import opened Records
  import opened Templates

  datatype Error =
    | BadHeader
    | BadSet
    | BadTemplate
    | BadRecord
    | UnknownTemplate(id: nat)
    | Uninterpretable

  datatype TemplateDef = TemplateDef(id: nat, fields: seq<Field>)

  datatype ParsedSet =
    | TemplateDefs(defs: seq<TemplateDef>)
    | DataRecords(id: nat, records: seq<seq<Information>>)

  type TemplateStore = map<nat, seq<Field>>

  function U16At(bs: seq<byte>, at: nat): (n: u16)
    requires at + 2 <= |bs|
  {
    Pow256Values();
    FromBytesBound(bs[at..at + 2]);
    FromBytes(bs[at..at + 2])
  }

  function U32At(bs: seq<byte>, at: nat): (n: u32)
    requires at + 4 <= |bs|
  {
    Pow256Values();
    FromBytesBound(bs[at..at + 4]);
    FromBytes(bs[at..at + 4])
  }

  // ---- Sets (sections 3.3 and 3.4.1) ------------------------------------------------------------------

  function ParseFields(bs: seq<byte>): Result<seq<Field>, Error> {
    if bs == [] then Ok([])
    else if |bs| < 4 then Err(BadTemplate)
    else
      var f := Field(U16At(bs, 0), U16At(bs, 2));
      if f.ie >= 0x8000 || f.length == 0xFFFF then Err(BadTemplate)
      else
        var rest :- ParseFields(bs[4..]);
        Ok([f] + rest)
  }

  function ParseTemplates(bs: seq<byte>): Result<seq<TemplateDef>, Error> {
    if bs == [] then Ok([])
    else if |bs| < 4 then Err(BadTemplate)
    else
      var id, end := U16At(bs, 0), 4 + 4 * U16At(bs, 2);
      if id < 256 || end == 4 || |bs| < end then Err(BadTemplate)
      else
        var fields :- ParseFields(bs[4..end]);
        var rest :- ParseTemplates(bs[end..]);
        Ok([TemplateDef(id, fields)] + rest)
  }

  function Learn(known: TemplateStore, defs: seq<TemplateDef>): TemplateStore
    decreases |defs|
  {
    if defs == [] then known else Learn(known[defs[0].id := defs[0].fields], defs[1..])
  }

  function CutRecords(fields: seq<Field>, bs: seq<byte>): Result<seq<seq<Information>>, Error> {
    if bs == [] then Ok([])
    else
      var n := RecordLength(fields);
      if n == 0 || |bs| < n then Err(BadRecord)
      else
        var rest :- CutRecords(fields, bs[n..]);
        Ok([CutFields(fields, bs[..n])] + rest)
  }

  function ParseSet(id: nat, body: seq<byte>, known: TemplateStore): Result<ParsedSet, Error> {
    if body == [] then Err(BadSet)
    else if id == TEMPLATE_SET_ID then
      var defs :- ParseTemplates(body);
      Ok(TemplateDefs(defs))
    else if id < 256 then Err(BadSet)
    else if id !in known then Err(UnknownTemplate(id))
    else
      var records :- CutRecords(known[id], body);
      Ok(DataRecords(id, records))
  }

  function AfterSet(s: ParsedSet, known: TemplateStore): TemplateStore {
    if s.TemplateDefs? then Learn(known, s.defs) else known
  }

  /** The sets tiling `bs`, each read with the templates known by then, and the templates known at the end. */
  function ParseSets(bs: seq<byte>, known: TemplateStore): Result<(seq<ParsedSet>, TemplateStore), Error> {
    if bs == [] then Ok(([], known))
    else if |bs| < 4 || U16At(bs, 2) < 4 || U16At(bs, 2) > |bs| then Err(BadSet)
    else
      var len := U16At(bs, 2);
      var s :- ParseSet(U16At(bs, 0), bs[4..len], known);
      var (rest, after) :- ParseSets(bs[len..], AfterSet(s, known));
      Ok(([s] + rest, after))
  }

  // ---- Messages (section 3.1) -------------------------------------------------------------------------

  datatype ParsedMessage = ParsedMessage(
    exportTime: u32,
    sequence: u32,
    odid: u32,
    sets: seq<ParsedSet>,
    known: TemplateStore)

  function ParseMessage(bs: seq<byte>, known: TemplateStore): Result<ParsedMessage, Error> {
    if |bs| < 16 || U16At(bs, 0) != VERSION || U16At(bs, 2) != |bs| then Err(BadHeader)
    else
      var (sets, after) :- ParseSets(bs[16..], known);
      Ok(ParsedMessage(U32At(bs, 4), U32At(bs, 8), U32At(bs, 12), sets, after))
  }

  // ---- Reading records by Information Element number --------------------------------------------------

  function OctetsOf(r: seq<Information>, ie: u16, length: nat): Option<seq<byte>> {
    var found := Find(r, ie);
    if found.Some? && |found.value| == length then found else None
  }

  function NumberOf(r: seq<Information>, ie: u16, length: nat): (n: Option<nat>)
    ensures n.Some? ==> n.value < Pow256(length)
  {
    match OctetsOf(r, ie, length)
    case Some(o) => FromBytesBound(o); Some(FromBytes(o))
    case None => None
  }

  function InterpretAddrs(r: seq<Information>): Option<FlowAddrs> {
    var src4, dst4 := OctetsOf(r, IE_SOURCE_IPV4_ADDRESS, 4), OctetsOf(r, IE_DESTINATION_IPV4_ADDRESS, 4);
    var src6, dst6 := OctetsOf(r, IE_SOURCE_IPV6_ADDRESS, 16), OctetsOf(r, IE_DESTINATION_IPV6_ADDRESS, 16);
    if src4.Some? && dst4.Some? then Some(V4(src4.value, dst4.value))
    else if src6.Some? && dst6.Some? then Some(V6(src6.value, dst6.value))
    else None
  }

  function Interpret(r: seq<Information>): Option<WireFlow> {
    Pow256Values();
    var addrs := InterpretAddrs(r);
    var srcPort, dstPort := NumberOf(r, IE_SOURCE_TRANSPORT_PORT, 2), NumberOf(r, IE_DESTINATION_TRANSPORT_PORT, 2);
    var protocol := NumberOf(r, IE_PROTOCOL_IDENTIFIER, 1);
    var srcMac, dstMac := OctetsOf(r, IE_SOURCE_MAC_ADDRESS, 6), OctetsOf(r, IE_DESTINATION_MAC_ADDRESS, 6);
    var vlanId, etherType := NumberOf(r, IE_DOT1Q_VLAN_ID, 2), NumberOf(r, IE_ETHERNET_TYPE, 2);
    var direction := NumberOf(r, IE_FLOW_DIRECTION, 1);
    var bytes, packets := NumberOf(r, IE_LAYER2_OCTET_DELTA_COUNT, 8), NumberOf(r, IE_PACKET_DELTA_COUNT, 8);
    var first, last := NumberOf(r, IE_FLOW_START_MILLISECONDS, 8), NumberOf(r, IE_FLOW_END_MILLISECONDS, 8);
    if addrs.Some? && srcPort.Some? && dstPort.Some? && protocol.Some? && srcMac.Some? && dstMac.Some?
       && vlanId.Some? && etherType.Some? && direction.Some? && bytes.Some? && packets.Some? && first.Some?
       && last.Some?
    then
      Some(WireFlow(WireKey(addrs.value, srcPort.value, dstPort.value, protocol.value), srcMac.value, dstMac.value,
                    vlanId.value, etherType.value, direction.value, bytes.value, packets.value, first.value,
                    last.value))
    else None
  }

  function InterpretAll(records: seq<seq<Information>>): Result<seq<WireFlow>, Error> {
    if records == [] then Ok([])
    else
      var w := Interpret(records[0]);
      if w == None then Err(Uninterpretable)
      else
        var rest :- InterpretAll(records[1..]);
        Ok([w.value] + rest)
  }

  function FlowsOf(sets: seq<ParsedSet>): Result<seq<WireFlow>, Error> {
    if sets == [] then Ok([])
    else
      var first :- InterpretAll(if sets[0].DataRecords? then sets[0].records else []);
      var rest :- FlowsOf(sets[1..]);
      Ok(first + rest)
  }

  // ---- The collector ----------------------------------------------------------------------------------

  /** `expected` is the sequence number the next message should carry, once one message has been accepted;
      `lost` sums the gaps seen; `rejected` counts the messages that could not be read. */
  datatype Collector = Collector(
    known: TemplateStore,
    expected: Option<u32>,
    lost: nat,
    rejected: nat,
    flows: seq<WireFlow>)

  const FRESH := Collector(map[], None, 0, 0, [])

  /** The gap between the sequence number received and the one expected. */
  function Gap(expected: Option<u32>, sequence: u32): nat {
    match expected
    case None => 0
    case Some(e) => (sequence - e) % 0x1_0000_0000
  }

  function Accept(c: Collector, dg: seq<byte>): Result<Collector, Error> {
    var m :- ParseMessage(dg, c.known);
    var flows :- FlowsOf(m.sets);
    Ok(Collector(m.known, Some(WrappingAdd(m.sequence, |flows|)), c.lost + Gap(c.expected, m.sequence),
                 c.rejected, c.flows + flows))
  }

  /** An unreadable message is dropped whole. */
  function Receive(c: Collector, dg: seq<byte>): Collector {
    match Accept(c, dg)
    case Ok(c') => c'
    case Err(_) => c.(rejected := c.rejected + 1)
  }

  /** What the collector knows after those of `dgs` that `delivered` marks have reached it, in order. */
  function Listen(dgs: seq<seq<byte>>, delivered: seq<bool>): Collector
    requires |dgs| == |delivered|
  {
    if dgs == [] then FRESH
    else
      var n := |dgs| - 1;
      var c := Listen(dgs[..n], delivered[..n]);
      if delivered[n] then Receive(c, dgs[n]) else c
  }
}
