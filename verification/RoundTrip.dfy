/** Every message the encoder prints is read back by the collector: its header, its tiling into sets, and, once
    the templates are known, exactly the wire projection of its flows. */
module RoundTrip {
  import opened Basics
  import opened BigEndian
  import opened Collectors
  import opened Encoder
  import opened Flows
  import opened InformationElements
  import opened Records
  import opened Templates

  // ---- Records ----------------------------------------------------------------------------------------

  lemma {:induction false} ElementsAreDistinct(w: WireFlow)
    ensures forall i, j :: 0 <= i < j < |Elements(w)| ==> Elements(w)[i].ie != Elements(w)[j].ie
  {
  }

  lemma {:induction false} FindElement(w: WireFlow, i: nat)
    requires i < |Elements(w)|
    ensures Find(Elements(w), Elements(w)[i].ie) == Some(Elements(w)[i].octets)
  {
    ElementsAreDistinct(w);
    FindFirst(Elements(w), i);
  }

  lemma {:induction false} OctetsElement(w: WireFlow, i: nat, ie: u16, octets: seq<byte>)
    requires i < |Elements(w)| && Elements(w)[i] == Information(ie, octets)
    ensures OctetsOf(Elements(w), ie, |octets|) == Some(octets)
  {
    hide Elements;
    FindElement(w, i);
  }

  lemma {:induction false} NumberElement(w: WireFlow, i: nat, ie: u16, value: nat, length: nat)
    requires i < |Elements(w)| && Elements(w)[i] == Information(ie, ToBytes(value, length))
    requires value < Pow256(length)
    ensures NumberOf(Elements(w), ie, length) == Some(value)
  {
    hide Elements;
    OctetsElement(w, i, ie, ToBytes(value, length));
    FromToBytes(value, length);
  }

  lemma {:induction false} OneByte(b: byte)
    ensures ToBytes(b, 1) == [b]
  {
    assert ToBytes(b / 256, 0) == [];
  }

  lemma {:induction false} InterpretAddressElements(w: WireFlow)
    ensures InterpretAddrs(Elements(w)) == Some(w.key.addrs)
  {
    match w.key.addrs {
      case V4(src, dst) =>
        OctetsElement(w, 0, IE_SOURCE_IPV4_ADDRESS, src);
        OctetsElement(w, 1, IE_DESTINATION_IPV4_ADDRESS, dst);
      case V6(src, dst) =>
        OctetsElement(w, 0, IE_SOURCE_IPV6_ADDRESS, src);
        OctetsElement(w, 1, IE_DESTINATION_IPV6_ADDRESS, dst);
        FindAbsent(Elements(w), IE_SOURCE_IPV4_ADDRESS);
    }
  }

  /** Reading the elements of a flow by number gives the flow back. */
  lemma {:induction false} InterpretElements(w: WireFlow)
    ensures Interpret(Elements(w)) == Some(w)
  {
    hide NumberOf, OctetsOf, InterpretAddrs;
    Pow256Values();
    OneByte(w.key.protocol);
    OneByte(w.direction);
    InterpretAddressElements(w);
    NumberElement(w, 2, IE_SOURCE_TRANSPORT_PORT, w.key.srcPort, 2);
    NumberElement(w, 3, IE_DESTINATION_TRANSPORT_PORT, w.key.dstPort, 2);
    NumberElement(w, 4, IE_PROTOCOL_IDENTIFIER, w.key.protocol, 1);
    OctetsElement(w, 5, IE_SOURCE_MAC_ADDRESS, w.srcMac);
    OctetsElement(w, 6, IE_DESTINATION_MAC_ADDRESS, w.dstMac);
    NumberElement(w, 7, IE_DOT1Q_VLAN_ID, w.vlanId, 2);
    NumberElement(w, 8, IE_ETHERNET_TYPE, w.etherType, 2);
    NumberElement(w, 9, IE_FLOW_DIRECTION, w.direction, 1);
    NumberElement(w, 10, IE_LAYER2_OCTET_DELTA_COUNT, w.bytes, 8);
    NumberElement(w, 11, IE_PACKET_DELTA_COUNT, w.packets, 8);
    NumberElement(w, 12, IE_FLOW_START_MILLISECONDS, w.firstSeenMs, 8);
    NumberElement(w, 13, IE_FLOW_END_MILLISECONDS, w.lastSeenMs, 8);
  }

  /** The record holds `n` under the element number, in so many octets. */
  predicate HoldsNumber(r: seq<Information>, ie: u16, length: nat, n: nat) {
    var found := Find(r, ie);
    found.Some? && |found.value| == length && FromBytes(found.value) == n
  }

  lemma {:induction false} ElementHolds(w: WireFlow, i: nat, ie: u16, value: nat, length: nat)
    requires i < |Elements(w)| && Elements(w)[i] == Information(ie, ToBytes(value, length))
    requires value < Pow256(length)
    ensures HoldsNumber(Elements(w), ie, length, value)
  {
    hide Elements;
    FindElement(w, i);
    FromToBytes(value, length);
  }

  /** The addresses of a record, each under its own family's element numbers and nothing under the other's. */
  ghost predicate HoldsAddresses(r: seq<Information>, addrs: FlowAddrs) {
    && (addrs.V4? ==>
          Find(r, 8) == Some(addrs.src4) && Find(r, 12) == Some(addrs.dst4) && Find(r, 27) == Find(r, 28) == None)
    && (addrs.V6? ==>
          Find(r, 27) == Some(addrs.src6) && Find(r, 28) == Some(addrs.dst6) && Find(r, 8) == Find(r, 12) == None)
  }

  /** The key of a flow, element by element. */
  ghost predicate HoldsKey(r: seq<Information>, key: FlowKey) {
    && HoldsAddresses(r, key.addrs)
    && HoldsNumber(r, 7, 2, if key.srcPort.Some? then key.srcPort.value else 0)
    && HoldsNumber(r, 11, 2, if key.dstPort.Some? then key.dstPort.value else 0)
    && (key.protocol == Udp ==> Find(r, 4) == Some([17]))
    && (key.protocol.Other? ==> Find(r, 4) == Some([if key.protocol.iana.Some? then key.protocol.iana.value else 0]))
  }

  /** The values of a flow, element by element. */
  ghost predicate HoldsValues(r: seq<Information>, val: FlowVal) {
    && Find(r, 56) == Some(if val.srcMac.Some? then val.srcMac.value else [0, 0, 0, 0, 0, 0])
    && Find(r, 80) == Some(if val.dstMac.Some? then val.dstMac.value else [0, 0, 0, 0, 0, 0])
    && HoldsNumber(r, 243, 2, if val.vlanId.Some? then val.vlanId.value else 0)
    && HoldsNumber(r, 256, 2, val.etherType)
    && Find(r, 61) == Some([if val.direction == None then 0xFF else if val.direction == Some(Incoming) then 0 else 1])
    && HoldsNumber(r, 352, 8, val.bytes)
    && HoldsNumber(r, 2, 8, val.packets)
    && HoldsNumber(r, 152, 8, val.firstSeenMs)
    && HoldsNumber(r, 153, 8, val.lastSeenMs)
  }

  lemma {:induction false} OtherFamilyIsAbsent(w: WireFlow, ie: u16)
    requires if w.key.addrs.V4? then ie == 27 || ie == 28 else ie == 8 || ie == 12
    ensures Find(Elements(w), ie) == None
  {
    hide Find;
    var es := Elements(w);
    assert es[0].ie != ie && es[1].ie != ie;
    forall j | 2 <= j < |es|
      ensures es[j].ie != ie
    {
      assert es[j] == CommonElements(w)[j - 2];
    }
    FindAbsent(es, ie);
  }

  lemma {:induction false} ElementsHoldAddresses(w: WireFlow)
    ensures HoldsAddresses(Elements(w), w.key.addrs)
  {
    FindElement(w, 0);
    FindElement(w, 1);
    if w.key.addrs.V4? {
      OtherFamilyIsAbsent(w, 27);
      OtherFamilyIsAbsent(w, 28);
    } else {
      OtherFamilyIsAbsent(w, 8);
      OtherFamilyIsAbsent(w, 12);
    }
  }

  lemma {:induction false} ElementsHoldKey(flow: Flow)
    ensures HoldsKey(Elements(Project(flow)), flow.key)
  {
    hide Find, HoldsNumber, HoldsAddresses, Pow256, ToBytes;
    var w := Project(flow);
    Pow256Values();
    ElementsHoldAddresses(w);
    ElementHolds(w, 2, 7, w.key.srcPort, 2);
    ElementHolds(w, 3, 11, w.key.dstPort, 2);
    FindElement(w, 4);
  }

  lemma {:induction false} ElementsHoldValues(flow: Flow)
    ensures HoldsValues(Elements(Project(flow)), flow.val)
  {
    hide Find, HoldsNumber, Pow256, ToBytes;
    var w := Project(flow);
    Pow256Values();
    FindElement(w, 5);
    FindElement(w, 6);
    ElementHolds(w, 7, 243, w.vlanId, 2);
    ElementHolds(w, 8, 256, w.etherType, 2);
    FindElement(w, 9);
    ElementHolds(w, 10, 352, w.bytes, 8);
    ElementHolds(w, 11, 2, w.packets, 8);
    ElementHolds(w, 12, 152, w.firstSeenMs, 8);
    ElementHolds(w, 13, 153, w.lastSeenMs, 8);
  }

  /** What stands in a record, field by field, under the IANA number of each element. */
  lemma {:induction false} RecordFields(flow: Flow)
    ensures |RecordBytes(flow)| == RecordLength(TemplateFields(flow.key.addrs))
    ensures var r := CutFields(TemplateFields(flow.key.addrs), RecordBytes(flow));
            HoldsKey(r, flow.key) && HoldsValues(r, flow.val)
  {
    hide Elements, HoldsKey, HoldsValues, RecordBytes, CutFields, Project;
    TemplateDescribesRecord(flow);
    ElementsHoldKey(flow);
    ElementsHoldValues(flow);
  }

  lemma {:induction false} SameProjectionSameOctets(f: Flow, g: Flow)
    requires Project(f) == Project(g)
    ensures RecordBytes(f) == RecordBytes(g)
  {
    hide Elements;
  }

  /** Two flows have the same octets exactly when family and wire projection agree. */
  lemma {:induction false} SameOctetsIffSameProjection(f: Flow, g: Flow)
    ensures RecordBytes(f) == RecordBytes(g) <==> Project(f) == Project(g)
  {
    hide Elements, RecordBytes, Interpret;
    if Project(f) == Project(g) {
      SameProjectionSameOctets(f, g);
    }
    if RecordBytes(f) == RecordBytes(g) {
      TemplateDescribesRecord(f);
      TemplateDescribesRecord(g);
      assert f.key.addrs.V4? == g.key.addrs.V4?;
      InterpretElements(Project(f));
      InterpretElements(Project(g));
    }
  }

  function ElementsAll(flows: seq<Flow>): (rs: seq<seq<Information>>)
    ensures |rs| == |flows|
  {
    seq(|flows|, i requires 0 <= i < |flows| => Elements(Project(flows[i])))
  }

  lemma {:induction false} InterpretRecords(flows: seq<Flow>)
    ensures InterpretAll(ElementsAll(flows)) == Ok(ProjectAll(flows))
  {
    hide Elements, Interpret;
    if flows == [] {
    } else {
      InterpretElements(Project(flows[0]));
      InterpretRecords(flows[1..]);
      assert ElementsAll(flows)[1..] == ElementsAll(flows[1..]);
      assert ProjectAll(flows) == [Project(flows[0])] + ProjectAll(flows[1..]);
    }
  }

  lemma {:induction false} SplitAt<T>(a: seq<T>, b: seq<T>)
    ensures (a + b)[..|a|] == a && (a + b)[|a|..] == b
  {
  }

  lemma {:induction false} CutRecordsStep(fields: seq<Field>, record: seq<byte>, rest: seq<byte>)
    requires |record| == RecordLength(fields) > 0
    requires CutRecords(fields, rest).Ok?
    ensures CutRecords(fields, record + rest) == Ok([CutFields(fields, record)] + CutRecords(fields, rest).value)
  {
    hide CutFields, RecordLength;
    SplitAt(record, rest);
  }

  lemma {:induction false} ElementsAllStep(flows: seq<Flow>)
    requires flows != []
    ensures ElementsAll(flows) == [Elements(Project(flows[0]))] + ElementsAll(flows[1..])
  {
    hide Elements, Project;
  }

  lemma {:induction false} NothingToCut(fields: seq<Field>)
    ensures CutRecords(fields, []) == Ok(ElementsAll([]))
  {
  }

  lemma {:induction false} CutPayload(flows: seq<Flow>, fields: seq<Field>)
    requires forall i :: 0 <= i < |flows| ==> TemplateFields(flows[i].key.addrs) == fields
    ensures CutRecords(fields, Payload(flows)) == Ok(ElementsAll(flows))
  {
    hide Elements, RecordBytes, RecordLength, CutRecords, CutFields, ElementsAll, Project, TemplateFields;
    if flows == [] {
      NothingToCut(fields);
    } else {
      TemplateDescribesRecord(flows[0]);
      CutPayload(flows[1..], fields);
      CutRecordsStep(fields, RecordBytes(flows[0]), Payload(flows[1..]));
      ElementsAllStep(flows);
    }
  }

  // ---- Templates --------------------------------------------------------------------------------------

  const AGENT_TEMPLATES := [TemplateDef(TEMPLATE_ID_V4, V4_FIELDS), TemplateDef(TEMPLATE_ID_V6, V6_FIELDS)]

  /** The templates are known as the agent announces them. */
  ghost predicate Knows(known: TemplateStore) {
    && TEMPLATE_ID_V4 in known && known[TEMPLATE_ID_V4] == V4_FIELDS
    && TEMPLATE_ID_V6 in known && known[TEMPLATE_ID_V6] == V6_FIELDS
  }

  lemma {:induction false} U16AtSecond(m: u16, n: u16, rest: seq<byte>)
    ensures U16At(ToBytes(m, 2) + ToBytes(n, 2) + rest, 0) == m
    ensures U16At(ToBytes(m, 2) + ToBytes(n, 2) + rest, 2) == n
    ensures (ToBytes(m, 2) + ToBytes(n, 2) + rest)[4..] == rest
  {
    hide ToBytes, FromBytes;
    var bs := ToBytes(m, 2) + ToBytes(n, 2) + rest;
    assert bs[0..2] == ToBytes(m, 2) && bs[2..4] == ToBytes(n, 2);
    U16RoundTrip(m);
    U16RoundTrip(n);
  }

  lemma {:induction false} ParseFieldSpecifiers(fields: seq<Field>)
    requires forall i :: 0 <= i < |fields| ==> fields[i].ie < 0x8000 && fields[i].length < 0xFFFF
    ensures ParseFields(FieldSpecifiers(fields)) == Ok(fields)
  {
    hide ToBytes, U16At;
    if fields == [] {
    } else {
      U16AtSecond(fields[0].ie, fields[0].length, FieldSpecifiers(fields[1..]));
      ParseFieldSpecifiers(fields[1..]);
      assert fields == [fields[0]] + fields[1..];
    }
  }

  lemma {:induction false} ParseTemplateRecord(id: u16, fields: seq<Field>, rest: seq<byte>)
    requires id >= 256 && 0 < |fields| < 0x4000
    requires forall i :: 0 <= i < |fields| ==> fields[i].ie < 0x8000 && fields[i].length < 0xFFFF
    requires ParseTemplates(rest).Ok?
    ensures ParseTemplates(TemplateRecord(id, fields) + rest)
         == Ok([TemplateDef(id, fields)] + ParseTemplates(rest).value)
  {
    hide ToBytes, U16At, FieldSpecifiers, ParseFields;
    var specifiers := FieldSpecifiers(fields);
    var bs := TemplateRecord(id, fields) + rest;
    var end := 4 + 4 * |fields|;
    ConcatAssoc(ToBytes(id, 2) + ToBytes(|fields|, 2), specifiers, rest);
    U16AtSecond(id, |fields|, specifiers + rest);
    SplitAt(TemplateRecord(id, fields), rest);
    SplitAt(specifiers, rest);
    assert bs[4..end] == bs[4..][..|specifiers|];
    ParseFieldSpecifiers(fields);
  }

  lemma {:induction false} StandardFields()
    ensures forall i :: 0 <= i < |V4_FIELDS| ==> V4_FIELDS[i].ie < 0x8000 && V4_FIELDS[i].length < 0xFFFF
    ensures forall i :: 0 <= i < |V6_FIELDS| ==> V6_FIELDS[i].ie < 0x8000 && V6_FIELDS[i].length < 0xFFFF
  {
  }

  lemma {:induction false} ParseAgentTemplates()
    ensures ParseTemplates(TemplateRecord(TEMPLATE_ID_V4, V4_FIELDS) + TemplateRecord(TEMPLATE_ID_V6, V6_FIELDS))
         == Ok(AGENT_TEMPLATES)
  {
    hide TemplateRecord;
    StandardFields();
    var v4, v6 := TemplateDef(TEMPLATE_ID_V4, V4_FIELDS), TemplateDef(TEMPLATE_ID_V6, V6_FIELDS);
    ParseTemplateRecord(TEMPLATE_ID_V6, V6_FIELDS, []);
    ConcatEmpty(TemplateRecord(TEMPLATE_ID_V6, V6_FIELDS));
    ConcatEmpty([v6]);
    ParseTemplateRecord(TEMPLATE_ID_V4, V4_FIELDS, TemplateRecord(TEMPLATE_ID_V6, V6_FIELDS));
    assert [v4] + [v6] == AGENT_TEMPLATES;
  }

  lemma {:induction false} LearnAgentTemplates(known: TemplateStore)
    ensures Learn(known, AGENT_TEMPLATES)
         == known[TEMPLATE_ID_V4 := V4_FIELDS][TEMPLATE_ID_V6 := V6_FIELDS]
    ensures Knows(Learn(known, AGENT_TEMPLATES))
  {
    var d := AGENT_TEMPLATES;
    var once := known[d[0].id := d[0].fields];
    assert d[1..][1..] == [];
    assert Learn(once, d[1..]) == once[d[1].id := d[1].fields];
  }

  // ---- Sets -------------------------------------------------------------------------------------------

  function SetBytes(id: u16, body: seq<byte>): seq<byte> {
    ToBytes(id, 2) + ToBytes(SET_HEADER_LEN + |body|, 2) + body
  }

  /** A set is read off the front, and the rest with the templates known after it. */
  lemma {:induction false} ParseSetsStep(id: u16, body: seq<byte>, rest: seq<byte>, known: TemplateStore)
    requires SET_HEADER_LEN + |body| <= U16_MAX
    ensures var bs, first := SetBytes(id, body) + rest, ParseSet(id, body, known);
            && (first.Err? ==> ParseSets(bs, known) == Err(first.error))
            && (first.Ok? ==>
                  var others := ParseSets(rest, AfterSet(first.value, known));
                  others.Ok? ==> ParseSets(bs, known) == Ok(([first.value] + others.value.0, others.value.1)))
            && (first.Ok? ==>
                  var others := ParseSets(rest, AfterSet(first.value, known));
                  others.Err? ==> ParseSets(bs, known) == Err(others.error))
  {
    hide ToBytes, U16At, ParseSet, AfterSet;
    var bs := SetBytes(id, body) + rest;
    var len := SET_HEADER_LEN + |body|;
    ConcatAssoc(ToBytes(id, 2) + ToBytes(len, 2), body, rest);
    U16AtSecond(id, len, body + rest);
    SplitAt(SetBytes(id, body), rest);
    SplitAt(body, rest);
    assert bs[4..len] == bs[4..][..|body|];
  }

  lemma {:induction false} DataSetIsSet(id: u16, flows: seq<Flow>)
    requires flows != []
    ensures Payload(flows) != []
    ensures DataSet(id, flows) == SetBytes(id, Payload(flows))
  {
    hide RecordBytes;
    TemplateDescribesRecord(flows[0]);
  }

  function DataOf(id: nat, flows: seq<Flow>): seq<ParsedSet> {
    if flows == [] then [] else [DataRecords(id, ElementsAll(flows))]
  }

  /** The sets a message consists of, as a collector should see them. */
  function SetsOf(m: Message): seq<ParsedSet> {
    (if m.template then [TemplateDefs(AGENT_TEMPLATES)] else [])
    + DataOf(TEMPLATE_ID_V4, m.v4) + DataOf(TEMPLATE_ID_V6, m.v6)
  }

  lemma {:induction false} ParseData(id: u16, flows: seq<Flow>, rest: seq<byte>, known: TemplateStore)
    requires SET_HEADER_LEN + |Payload(flows)| <= U16_MAX
    requires Knows(known)
    requires (id == TEMPLATE_ID_V4 && AllV4(flows)) || (id == TEMPLATE_ID_V6 && AllV6(flows))
    requires ParseSets(rest, known).Ok?
    ensures ParseSets(DataSet(id, flows) + rest, known)
         == Ok((DataOf(id, flows) + ParseSets(rest, known).value.0, ParseSets(rest, known).value.1))
  {
    hide ParseSets, ElementsAll;
    if flows == [] {
      ConcatEmpty(rest);
      ConcatEmpty(ParseSets(rest, known).value.0);
    } else {
      DataSetIsSet(id, flows);
      CutPayload(flows, known[id]);
      ParseSetsStep(id, Payload(flows), rest, known);
    }
  }

  lemma {:induction false} ParseTemplateSet(rest: seq<byte>, known: TemplateStore)
    requires ParseSets(rest, Learn(known, AGENT_TEMPLATES)).Ok?
    ensures var others := ParseSets(rest, Learn(known, AGENT_TEMPLATES)).value;
            ParseSets(TemplateSet() + rest, known) == Ok(([TemplateDefs(AGENT_TEMPLATES)] + others.0, others.1))
  {
    hide ParseSets, Learn;
    var body := TemplateRecord(TEMPLATE_ID_V4, V4_FIELDS) + TemplateRecord(TEMPLATE_ID_V6, V6_FIELDS);
    assert TemplateSet() == SetBytes(TEMPLATE_SET_ID, body);
    ParseAgentTemplates();
    ParseSetsStep(TEMPLATE_SET_ID, body, rest, known);
  }

  // ---- Messages ---------------------------------------------------------------------------------------

  function KnownAfter(m: Message, known: TemplateStore): TemplateStore {
    if m.template then Learn(known, AGENT_TEMPLATES) else known
  }

  lemma {:induction false} ParseNothing(known: TemplateStore)
    ensures ParseSets([], known) == Ok(([], known))
  {
  }

  lemma {:induction false} PayloadsFit(m: Message)
    requires m.Typed() && m.Length() <= U16_MAX
    ensures SET_HEADER_LEN + |Payload(m.v4)| <= U16_MAX && SET_HEADER_LEN + |Payload(m.v6)| <= U16_MAX
  {
    RecordsHaveSize(m.v4, RECORD_SIZE_V4);
    RecordsHaveSize(m.v6, RECORD_SIZE_V6);
  }

  lemma {:induction false} ParseBody(m: Message, known: TemplateStore)
    requires m.Typed() && m.Length() <= U16_MAX
    requires m.template || Knows(known)
    ensures ParseSets(TemplateSetIf(m.template)
                      + (DataSet(TEMPLATE_ID_V4, m.v4) + DataSet(TEMPLATE_ID_V6, m.v6)), known)
         == Ok((SetsOf(m), KnownAfter(m, known)))
  {
    hide ParseSets, DataSet, DataOf, Learn, AllV4, AllV6, TemplateSet;
    var after := KnownAfter(m, known);
    LearnAgentTemplates(known);
    PayloadsFit(m);
    assert ParseSets([], after) == Ok(([], after)) by { ParseNothing(after); }
    ParseData(TEMPLATE_ID_V6, m.v6, [], after);
    ConcatEmpty(DataSet(TEMPLATE_ID_V6, m.v6));
    ConcatEmpty(DataOf(TEMPLATE_ID_V6, m.v6));
    ParseData(TEMPLATE_ID_V4, m.v4, DataSet(TEMPLATE_ID_V6, m.v6), after);
    var data := DataSet(TEMPLATE_ID_V4, m.v4) + DataSet(TEMPLATE_ID_V6, m.v6);
    var sets := DataOf(TEMPLATE_ID_V4, m.v4) + DataOf(TEMPLATE_ID_V6, m.v6);
    if m.template {
      ParseTemplateSet(data, known);
      ConcatAssoc([TemplateDefs(AGENT_TEMPLATES)], DataOf(TEMPLATE_ID_V4, m.v4), DataOf(TEMPLATE_ID_V6, m.v6));
    } else {
      ConcatEmpty(data);
      ConcatEmpty(DataOf(TEMPLATE_ID_V4, m.v4));
    }
  }

  lemma {:induction false} HeaderFields(m: Message, body: seq<byte>)
    requires m.Length() <= U16_MAX
    ensures var bs := Header(m) + body;
            && U16At(bs, 0) == VERSION && U16At(bs, 2) == m.Length()
            && U32At(bs, 4) == m.exportTime && U32At(bs, 8) == m.sequence && U32At(bs, 12) == m.odid
            && bs[16..] == body
  {
    hide ToBytes, FromBytes;
    var bs := Header(m) + body;
    assert bs[0..2] == ToBytes(VERSION, 2) && bs[2..4] == ToBytes(m.Length(), 2);
    assert bs[4..8] == ToBytes(m.exportTime, 4) && bs[8..12] == ToBytes(m.sequence, 4);
    assert bs[12..16] == ToBytes(m.odid, 4);
    U16RoundTrip(VERSION);
    U16RoundTrip(m.Length());
    U32RoundTrip(m.exportTime);
    U32RoundTrip(m.sequence);
    U32RoundTrip(m.odid);
  }

  lemma {:induction false} HeaderStart(m: Message)
    ensures Header(m)[0..2] == [0x00, 0x0A]
  {
    hide ToBytes;
    TwoOctets(VERSION);
    assert Header(m)[0..2] == ToBytes(VERSION, 2);
  }

  function BodyOf(m: Message): seq<byte> {
    TemplateSetIf(m.template) + (DataSet(TEMPLATE_ID_V4, m.v4) + DataSet(TEMPLATE_ID_V6, m.v6))
  }

  lemma {:induction false} PrintIsHeaderAndBody(m: Message)
    ensures Print(m) == Header(m) + BodyOf(m)
  {
    hide Header, TemplateSetIf, DataSet;
    var h, t, d4, d6 :=
      Header(m), TemplateSetIf(m.template), DataSet(TEMPLATE_ID_V4, m.v4), DataSet(TEMPLATE_ID_V6, m.v6);
    ConcatAssoc(h + t, d4, d6);
    ConcatAssoc(h, t, d4 + d6);
  }

  /** Every octet of a message header. */
  lemma {:induction false} HeaderOctets(m: Message)
    requires m.Typed() && m.Length() <= 0xFFFF
    ensures var bs := Print(m);
            && |bs| >= 16 && bs[0..2] == [0x00, 0x0A] && FromBytes(bs[2..4]) == |bs|
            && FromBytes(bs[4..8]) == m.exportTime && FromBytes(bs[8..12]) == m.sequence
            && FromBytes(bs[12..16]) == m.odid
  {
    hide Header, FromBytes;
    PrintIsHeaderAndBody(m);
    PrintLength(m);
    HeaderFields(m, BodyOf(m));
    HeaderStart(m);
  }

  lemma {:induction false} ParseBodyOf(m: Message, known: TemplateStore)
    requires m.Typed() && m.Length() <= U16_MAX
    requires m.template || Knows(known)
    ensures ParseSets(BodyOf(m), known) == Ok((SetsOf(m), KnownAfter(m, known)))
  {
    hide ParseSets, DataSet, SetsOf, KnownAfter, TemplateSetIf;
    ParseBody(m, known);
  }

  /** Every printed message is tiled exactly by its sets, with no padding: an optional Template Set, then a v4
      and a v6 Data Set for each family that has records; and its header reads back as written. */
  lemma {:induction false} PrintIsParsed(m: Message, known: TemplateStore)
    requires m.Typed() && m.Length() <= U16_MAX
    requires m.template || Knows(known)
    ensures ParseMessage(Print(m), known)
         == Ok(ParsedMessage(m.exportTime, m.sequence, m.odid, SetsOf(m), KnownAfter(m, known)))
  {
    hide Header, BodyOf, Print, SetsOf, KnownAfter, U16At, U32At, ParseSets;
    PrintLength(m);
    PrintIsHeaderAndBody(m);
    HeaderFields(m, BodyOf(m));
    assert ParseSets(BodyOf(m), known) == Ok((SetsOf(m), KnownAfter(m, known))) by {
      ParseBodyOf(m, known);
    }
  }

  lemma {:induction false} NoDataSet(id: u16)
    ensures DataSet(id, []) == []
  {
  }

  /** Without its templates, a message that carries records cannot be read. */
  lemma {:induction false} UnknownTemplateIsRejected(m: Message, known: TemplateStore)
    requires m.Typed() && m.Length() <= U16_MAX && m.RecordCount() > 0
    requires !m.template && TEMPLATE_ID_V4 !in known && TEMPLATE_ID_V6 !in known
    ensures ParseMessage(Print(m), known)
         == Err(UnknownTemplate(if m.v4 != [] then TEMPLATE_ID_V4 else TEMPLATE_ID_V6))
  {
    hide Header, DataSet, Print, U16At, U32At, ParseSets;
    PrintLength(m);
    PrintIsHeaderAndBody(m);
    HeaderFields(m, BodyOf(m));
    PayloadsFit(m);
    var d4, d6 := DataSet(TEMPLATE_ID_V4, m.v4), DataSet(TEMPLATE_ID_V6, m.v6);
    ConcatEmpty(d4 + d6);
    if m.v4 != [] {
      DataSetIsSet(TEMPLATE_ID_V4, m.v4);
      ParseSetsStep(TEMPLATE_ID_V4, Payload(m.v4), d6, known);
    } else {
      assert d4 == [] by { NoDataSet(TEMPLATE_ID_V4); }
      ConcatEmpty(d6);
      DataSetIsSet(TEMPLATE_ID_V6, m.v6);
      ParseSetsStep(TEMPLATE_ID_V6, Payload(m.v6), [], known);
    }
  }

  // ---- The collector ----------------------------------------------------------------------------------

  /** What a message tells a collector: its v4 flows and then its v6 flows, projected. */
  function Content(m: Message): (ws: seq<WireFlow>)
    ensures |ws| == m.RecordCount()
  {
    ProjectAll(m.v4) + ProjectAll(m.v6)
  }

  lemma {:induction false} FlowsOfData(id: nat, flows: seq<Flow>, rest: seq<ParsedSet>)
    requires FlowsOf(rest).Ok?
    ensures FlowsOf(DataOf(id, flows) + rest) == Ok(ProjectAll(flows) + FlowsOf(rest).value)
  {
    hide ElementsAll;
    if flows == [] {
      ConcatEmpty(rest);
      ConcatEmpty(FlowsOf(rest).value);
    } else {
      InterpretRecords(flows);
      ConcatTail(DataOf(id, flows), rest);
      assert DataOf(id, flows)[1..] == [];
      ConcatEmpty(rest);
    }
  }

  lemma {:induction false} NoFlows()
    ensures FlowsOf([]) == Ok([])
  {
  }

  lemma {:induction false} FlowsAfterTemplates(rest: seq<ParsedSet>)
    requires FlowsOf(rest).Ok?
    ensures FlowsOf([TemplateDefs(AGENT_TEMPLATES)] + rest) == FlowsOf(rest)
  {
    ConcatTail([TemplateDefs(AGENT_TEMPLATES)], rest);
    ConcatEmpty(rest);
    ConcatEmpty(FlowsOf(rest).value);
  }

  lemma {:induction false} FlowsOfSets(m: Message)
    ensures FlowsOf(SetsOf(m)) == Ok(Content(m))
  {
    hide DataOf, FlowsOf, ProjectAll;
    var d4, d6 := DataOf(TEMPLATE_ID_V4, m.v4), DataOf(TEMPLATE_ID_V6, m.v6);
    assert FlowsOf([]) == Ok([]) by { NoFlows(); }
    FlowsOfData(TEMPLATE_ID_V6, m.v6, []);
    ConcatEmpty(d6);
    ConcatEmpty(ProjectAll(m.v6));
    FlowsOfData(TEMPLATE_ID_V4, m.v4, d6);
    if m.template {
      ConcatAssoc([TemplateDefs(AGENT_TEMPLATES)], d4, d6);
      FlowsAfterTemplates(d4 + d6);
    } else {
      ConcatEmpty(d4);
    }
  }

  /** A readable message: the collector takes exactly its content, and the gap its number reveals. */
  lemma {:induction false} ReceiveKnown(c: Collector, m: Message)
    requires m.Typed() && m.Length() <= U16_MAX
    requires m.template || Knows(c.known)
    ensures Receive(c, Print(m))
         == Collector(KnownAfter(m, c.known), Some(WrappingAdd(m.sequence, m.RecordCount())),
                      c.lost + Gap(c.expected, m.sequence), c.rejected, c.flows + Content(m))
    ensures Knows(KnownAfter(m, c.known))
  {
    hide Print, ParseMessage, FlowsOf, SetsOf, Content;
    PrintIsParsed(m, c.known);
    FlowsOfSets(m);
    LearnAgentTemplates(c.known);
  }

  lemma {:induction false} ReceiveUnknown(c: Collector, m: Message)
    requires m.Typed() && m.Length() <= U16_MAX && m.RecordCount() > 0
    requires !m.template && TEMPLATE_ID_V4 !in c.known && TEMPLATE_ID_V6 !in c.known
    ensures Receive(c, Print(m)) == c.(rejected := c.rejected + 1)
  {
    hide Print, ParseMessage;
    UnknownTemplateIsRejected(m, c.known);
  }
}
