/** The two IPFIX templates and their Template Set (src/ipfix/template.rs, src/ipfix/mod.rs). */
module Templates {
  import opened Basics
  import opened BigEndian
  import opened Buffer

  const VERSION: u16 := 0x000A
  const TEMPLATE_SET_ID: u16 := 2
  const TEMPLATE_ID_V4: u16 := 256
  const TEMPLATE_ID_V6: u16 := 257

  const MSG_HEADER_LEN: u16 := 16
  const RECORD_SIZE_V4: u16 := 62
  const RECORD_SIZE_V6: u16 := 86
  const SET_HEADER_LEN: u16 := 4

  const IE_PACKET_DELTA_COUNT: u16 := 2
  const IE_PROTOCOL_IDENTIFIER: u16 := 4
  const IE_SOURCE_TRANSPORT_PORT: u16 := 7
  const IE_SOURCE_IPV4_ADDRESS: u16 := 8
  const IE_DESTINATION_TRANSPORT_PORT: u16 := 11
  const IE_DESTINATION_IPV4_ADDRESS: u16 := 12
  const IE_SOURCE_IPV6_ADDRESS: u16 := 27
  const IE_DESTINATION_IPV6_ADDRESS: u16 := 28
  const IE_SOURCE_MAC_ADDRESS: u16 := 56
  const IE_FLOW_DIRECTION: u16 := 61
  const IE_DESTINATION_MAC_ADDRESS: u16 := 80
  const IE_FLOW_START_MILLISECONDS: u16 := 152
  const IE_FLOW_END_MILLISECONDS: u16 := 153
  const IE_DOT1Q_VLAN_ID: u16 := 243
  const IE_ETHERNET_TYPE: u16 := 256
  const IE_LAYER2_OCTET_DELTA_COUNT: u16 := 352

  const FIELD_COUNT: u16 := 14
  const TEMPLATE_RECORD_LEN: u16 := 4 + FIELD_COUNT * 4
  const TEMPLATE_SET_LEN: u16 := 4 + 2 * TEMPLATE_RECORD_LEN

  /** A field specifier: Information Element number and length in octets. */
  datatype Field = Field(ie: u16, length: u16)

  const COMMON_FIELDS: seq<Field> := [
    Field(IE_SOURCE_TRANSPORT_PORT, 2),
    Field(IE_DESTINATION_TRANSPORT_PORT, 2),
    Field(IE_PROTOCOL_IDENTIFIER, 1),
    Field(IE_SOURCE_MAC_ADDRESS, 6),
    Field(IE_DESTINATION_MAC_ADDRESS, 6),
    Field(IE_DOT1Q_VLAN_ID, 2),
    Field(IE_ETHERNET_TYPE, 2),
    Field(IE_FLOW_DIRECTION, 1),
    Field(IE_LAYER2_OCTET_DELTA_COUNT, 8),
    Field(IE_PACKET_DELTA_COUNT, 8),
    Field(IE_FLOW_START_MILLISECONDS, 8),
    Field(IE_FLOW_END_MILLISECONDS, 8)]

  const V4_FIELDS: seq<Field> :=
    [Field(IE_SOURCE_IPV4_ADDRESS, 4), Field(IE_DESTINATION_IPV4_ADDRESS, 4)] + COMMON_FIELDS

  const V6_FIELDS: seq<Field> :=
    [Field(IE_SOURCE_IPV6_ADDRESS, 16), Field(IE_DESTINATION_IPV6_ADDRESS, 16)] + COMMON_FIELDS

  /** Octets of a record described by `fields`. */
  function RecordLength(fields: seq<Field>): nat {
    if fields == [] then 0 else fields[0].length + RecordLength(fields[1..])
  }

  lemma {:induction false} RecordLengthConcat(a: seq<Field>, b: seq<Field>)
    ensures RecordLength(a + b) == RecordLength(a) + RecordLength(b)
  {
    if a == [] {
      ConcatEmpty(b);
    } else {
      ConcatTail(a, b);
      RecordLengthConcat(a[1..], b);
    }
  }

  lemma {:induction false} RecordLengthOfFour(a: Field, b: Field, c: Field, d: Field)
    ensures RecordLength([a, b, c, d]) == a.length + b.length + c.length + d.length
  {
    RecordLengthConcat([a], [b]);
    RecordLengthConcat([a, b], [c]);
    RecordLengthConcat([a, b, c], [d]);
    assert [a] + [b] == [a, b] && [a, b] + [c] == [a, b, c] && [a, b, c] + [d] == [a, b, c, d];
    assert forall f: Field :: [f][1..] == [];
  }

  /** The record sizes the encoder budgets with are the ones the templates announce. */
  lemma {:induction false} RecordSizesMatchTemplates()
    ensures |V4_FIELDS| == |V6_FIELDS| == FIELD_COUNT
    ensures RecordLength(V4_FIELDS) == RECORD_SIZE_V4
    ensures RecordLength(V6_FIELDS) == RECORD_SIZE_V6
  {
    var c := COMMON_FIELDS;
    RecordLengthOfFour(c[0], c[1], c[2], c[3]);
    RecordLengthOfFour(c[4], c[5], c[6], c[7]);
    RecordLengthOfFour(c[8], c[9], c[10], c[11]);
    assert c[..4] == [c[0], c[1], c[2], c[3]];
    assert c[4..8] == [c[4], c[5], c[6], c[7]];
    assert c[8..] == [c[8], c[9], c[10], c[11]];
    RecordLengthConcat(c[..4], c[4..8]);
    RecordLengthConcat(c[..4] + c[4..8], c[8..]);
    assert c == c[..4] + c[4..8] + c[8..];
    RecordLengthConcat(V4_FIELDS[..2], c);
    RecordLengthConcat(V6_FIELDS[..2], c);
    assert V4_FIELDS[..2][1..] == V4_FIELDS[1..2] && V6_FIELDS[..2][1..] == V6_FIELDS[1..2];
    assert V4_FIELDS == V4_FIELDS[..2] + c && V6_FIELDS == V6_FIELDS[..2] + c;
  }

  function FieldSpecifiers(fields: seq<Field>): (bs: seq<byte>)
    ensures |bs| == 4 * |fields|
  {
    if fields == [] then []
    else ToBytes(fields[0].ie, 2) + ToBytes(fields[0].length, 2) + FieldSpecifiers(fields[1..])
  }

  lemma {:induction false} FieldSpecifiersSnoc(fields: seq<Field>, f: Field)
    ensures FieldSpecifiers(fields + [f])
         == FieldSpecifiers(fields) + (ToBytes(f.ie, 2) + ToBytes(f.length, 2))
  {
    var specifier := ToBytes(f.ie, 2) + ToBytes(f.length, 2);
    if fields == [] {
      assert [f][1..] == [];
      ConcatEmpty([f]);
      ConcatEmpty(specifier);
    } else {
      ConcatTail(fields, [f]);
      FieldSpecifiersSnoc(fields[1..], f);
      ConcatAssoc(ToBytes(fields[0].ie, 2) + ToBytes(fields[0].length, 2), FieldSpecifiers(fields[1..]), specifier);
    }
  }

  function TemplateRecord(id: u16, fields: seq<Field>): seq<byte> {
    ToBytes(id, 2) + ToBytes(|fields|, 2) + FieldSpecifiers(fields)
  }

  function TemplateSet(): (bs: seq<byte>)
    ensures |bs| == TEMPLATE_SET_LEN
  {
    ToBytes(TEMPLATE_SET_ID, 2) + ToBytes(TEMPLATE_SET_LEN, 2)
    + (TemplateRecord(TEMPLATE_ID_V4, V4_FIELDS) + TemplateRecord(TEMPLATE_ID_V6, V6_FIELDS))
  }

  lemma {:induction false} SpecifierAt(fields: seq<Field>, i: nat)
    requires i < |fields|
    ensures FieldSpecifiers(fields)[4 * i..4 * i + 4] == ToBytes(fields[i].ie, 2) + ToBytes(fields[i].length, 2)
  {
    hide ToBytes;
    var head, rest := ToBytes(fields[0].ie, 2) + ToBytes(fields[0].length, 2), FieldSpecifiers(fields[1..]);
    if i == 0 {
      assert (head + rest)[..4] == head;
    } else {
      SpecifierAt(fields[1..], i - 1);
      assert (head + rest)[4 * i..4 * i + 4] == rest[4 * (i - 1)..4 * (i - 1) + 4];
    }
  }

  /** Two octets of element number and two of length, as they go out for each field. */
  const V4_SPECIFIERS: seq<seq<byte>> := [
    [0x00, 0x08, 0x00, 0x04], [0x00, 0x0C, 0x00, 0x04], [0x00, 0x07, 0x00, 0x02], [0x00, 0x0B, 0x00, 0x02],
    [0x00, 0x04, 0x00, 0x01], [0x00, 0x38, 0x00, 0x06], [0x00, 0x50, 0x00, 0x06], [0x00, 0xF3, 0x00, 0x02],
    [0x01, 0x00, 0x00, 0x02], [0x00, 0x3D, 0x00, 0x01], [0x01, 0x60, 0x00, 0x08], [0x00, 0x02, 0x00, 0x08],
    [0x00, 0x98, 0x00, 0x08], [0x00, 0x99, 0x00, 0x08]]

  const V6_SPECIFIERS: seq<seq<byte>> := [
    [0x00, 0x1B, 0x00, 0x10], [0x00, 0x1C, 0x00, 0x10], [0x00, 0x07, 0x00, 0x02], [0x00, 0x0B, 0x00, 0x02],
    [0x00, 0x04, 0x00, 0x01], [0x00, 0x38, 0x00, 0x06], [0x00, 0x50, 0x00, 0x06], [0x00, 0xF3, 0x00, 0x02],
    [0x01, 0x00, 0x00, 0x02], [0x00, 0x3D, 0x00, 0x01], [0x01, 0x60, 0x00, 0x08], [0x00, 0x02, 0x00, 0x08],
    [0x00, 0x98, 0x00, 0x08], [0x00, 0x99, 0x00, 0x08]]

  lemma {:induction false} SpecifierOctets(i: nat)
    requires i < 14
    ensures FieldSpecifiers(V4_FIELDS)[4 * i..4 * i + 4] == V4_SPECIFIERS[i]
    ensures FieldSpecifiers(V6_FIELDS)[4 * i..4 * i + 4] == V6_SPECIFIERS[i]
  {
    hide FieldSpecifiers, ToBytes;
    SpecifierAt(V4_FIELDS, i);
    SpecifierAt(V6_FIELDS, i);
    TwoOctets(V4_FIELDS[i].ie);
    TwoOctets(V4_FIELDS[i].length);
    TwoOctets(V6_FIELDS[i].ie);
    TwoOctets(V6_FIELDS[i].length);
  }

  /** Every octet of the Template Set: its header (set 2, 124 octets), the headers of templates 256 and 257 (14
      fields each), and the 28 field specifiers. */
  lemma {:induction false} TemplateSetOctets()
    ensures |TemplateSet()| == 124
    ensures TemplateSet()[0..4] == [0x00, 0x02, 0x00, 0x7C]
    ensures TemplateSet()[4..8] == [0x01, 0x00, 0x00, 0x0E]
    ensures forall i :: 0 <= i < 14 ==> TemplateSet()[8 + 4 * i..12 + 4 * i] == V4_SPECIFIERS[i]
    ensures TemplateSet()[64..68] == [0x01, 0x01, 0x00, 0x0E]
    ensures forall i :: 0 <= i < 14 ==> TemplateSet()[68 + 4 * i..72 + 4 * i] == V6_SPECIFIERS[i]
  {
    hide FieldSpecifiers, ToBytes;
    var bs, f4, f6 := TemplateSet(), FieldSpecifiers(V4_FIELDS), FieldSpecifiers(V6_FIELDS);
    TwoOctets(TEMPLATE_SET_ID);
    TwoOctets(TEMPLATE_SET_LEN);
    TwoOctets(TEMPLATE_ID_V4);
    TwoOctets(TEMPLATE_ID_V6);
    TwoOctets(14);
    assert bs[8..64] == f4 && bs[68..124] == f6;
    forall i | 0 <= i < 14
      ensures bs[8 + 4 * i..12 + 4 * i] == V4_SPECIFIERS[i] && bs[68 + 4 * i..72 + 4 * i] == V6_SPECIFIERS[i]
    {
      SpecifierOctets(i);
      assert bs[8 + 4 * i..12 + 4 * i] == bs[8..64][4 * i..4 * i + 4];
      assert bs[68 + 4 * i..72 + 4 * i] == bs[68..124][4 * i..4 * i + 4];
    }
  }

  method WriteTemplateRecord(out: ByteVec, templateId: u16, fields: seq<Field>)
    requires |fields| == FIELD_COUNT
    modifies out
    ensures out.data == old(out.data) + TemplateRecord(templateId, fields)
  {
    out.Extend(ToBytes(templateId, 2));
    out.Extend(ToBytes(FIELD_COUNT, 2));
    ghost var header := out.data;
    for i := 0 to |fields|
      invariant out.data == header + FieldSpecifiers(fields[..i])
    {
      FieldSpecifiersSnoc(fields[..i], fields[i]);
      assert fields[..i + 1] == fields[..i] + [fields[i]];
      out.Extend(ToBytes(fields[i].ie, 2));
      out.Extend(ToBytes(fields[i].length, 2));
    }
    assert fields[..|fields|] == fields;
  }

  method WriteTemplateSet(out: ByteVec)
    modifies out
    ensures out.data == old(out.data) + TemplateSet()
  {
    out.Extend(ToBytes(TEMPLATE_SET_ID, 2));
    out.Extend(ToBytes(TEMPLATE_SET_LEN, 2));
    WriteTemplateRecord(out, TEMPLATE_ID_V4, V4_FIELDS);
    WriteTemplateRecord(out, TEMPLATE_ID_V6, V6_FIELDS);
  }
}
