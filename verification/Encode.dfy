/** The batch encoder (src/ipfix/encode.rs): a functional chunk-then-print form of the datagrams of a batch,
    and the buffer-and-cursor encoder proved to produce exactly those bytes. */
module Encoder {
  import opened Basics
  import opened BigEndian
  import opened Buffer
  import opened Flows
  import opened Records
  import opened Templates

  const MTU: u16 := 1200

  /** The compile-time assertion on the MTU, the only thing the encoder needs to know about it. */
  predicate MtuHolds(mtu: u16) {
    mtu >= MSG_HEADER_LEN + TEMPLATE_SET_LEN + SET_HEADER_LEN + RECORD_SIZE_V6
  }

  /** It asks for 230 octets. */
  lemma {:induction false} MtuHoldsIff(mtu: u16)
    ensures MtuHolds(mtu) <==> mtu >= 230
  {
  }

  // ---- Messages and their octets ----------------------------------------------------------------------

  datatype Message = Message(
    exportTime: u32,
    sequence: u32,
    odid: u32,
    template: bool,
    v4: seq<Flow>,
    v6: seq<Flow>)
  {
    function RecordCount(): nat {
      |v4| + |v6|
    }

    function Length(): nat {
      PrefixLength(template) + SetLength(|v4|, RECORD_SIZE_V4) + SetLength(|v6|, RECORD_SIZE_V6)
    }

    /** Each set holds records of its own family. */
    ghost predicate Typed() {
      AllV4(v4) && AllV6(v6)
    }
  }

  ghost predicate AllV4(flows: seq<Flow>) {
    forall i :: 0 <= i < |flows| ==> flows[i].key.addrs.V4?
  }

  ghost predicate AllV6(flows: seq<Flow>) {
    forall i :: 0 <= i < |flows| ==> flows[i].key.addrs.V6?
  }

  function PrefixLength(template: bool): u16 {
    MSG_HEADER_LEN + if template then TEMPLATE_SET_LEN else 0
  }

  function SetLength(count: nat, recordSize: u16): nat {
    if count == 0 then 0 else SET_HEADER_LEN + count * recordSize
  }

  function Payload(flows: seq<Flow>): seq<byte> {
    if flows == [] then [] else RecordBytes(flows[0]) + Payload(flows[1..])
  }

  lemma {:induction false} PayloadSnoc(flows: seq<Flow>, last: Flow)
    ensures Payload(flows + [last]) == Payload(flows) + RecordBytes(last)
  {
    hide RecordBytes;
    if flows == [] {
      assert [last][1..] == [];
      ConcatEmpty([last]);
      ConcatEmpty(RecordBytes(last));
    } else {
      ConcatTail(flows, [last]);
      PayloadSnoc(flows[1..], last);
      ConcatAssoc(RecordBytes(flows[0]), Payload(flows[1..]), RecordBytes(last));
    }
  }

  lemma {:induction false} OneMore(n: nat, size: nat)
    ensures (n + 1) * size == size + n * size
  {
  }

  lemma {:induction false} PayloadLength(flows: seq<Flow>, size: nat)
    requires forall i :: 0 <= i < |flows| ==> |RecordBytes(flows[i])| == size
    ensures |Payload(flows)| == |flows| * size
  {
    hide RecordBytes;
    if flows == [] {
    } else {
      PayloadLength(flows[1..], size);
      OneMore(|flows| - 1, size);
    }
  }

  /** A Data Set: set header and records, or nothing at all for no records. */
  function DataSet(id: u16, flows: seq<Flow>): seq<byte> {
    if flows == [] then []
    else ToBytes(id, 2) + ToBytes(SET_HEADER_LEN + |Payload(flows)|, 2) + Payload(flows)
  }

  function Header(m: Message): (bs: seq<byte>)
    ensures |bs| == MSG_HEADER_LEN
  {
    ToBytes(VERSION, 2) + ToBytes(m.Length(), 2)
    + ToBytes(m.exportTime, 4) + ToBytes(m.sequence, 4) + ToBytes(m.odid, 4)
  }

  function TemplateSetIf(template: bool): seq<byte> {
    if template then TemplateSet() else []
  }

  function Print(m: Message): seq<byte> {
    Header(m) + TemplateSetIf(m.template) + DataSet(TEMPLATE_ID_V4, m.v4) + DataSet(TEMPLATE_ID_V6, m.v6)
  }

  function PrintAll(ms: seq<Message>): (dgs: seq<seq<byte>>)
    ensures |dgs| == |ms|
  {
    seq(|ms|, i requires 0 <= i < |ms| => Print(ms[i]))
  }

  lemma {:induction false} PrintAllSnoc(ms: seq<Message>, m: Message)
    ensures PrintAll(ms + [m]) == PrintAll(ms) + [Print(m)]
  {
  }

  lemma {:induction false} RecordsHaveSize(flows: seq<Flow>, size: u16)
    requires (size == RECORD_SIZE_V4 && AllV4(flows)) || (size == RECORD_SIZE_V6 && AllV6(flows))
    ensures forall i :: 0 <= i < |flows| ==> |RecordBytes(flows[i])| == size
    ensures |Payload(flows)| == |flows| * size
  {
    forall i | 0 <= i < |flows|
      ensures |RecordBytes(flows[i])| == size
    {
      TemplateDescribesRecord(flows[i]);
    }
    PayloadLength(flows, size);
  }

  lemma {:induction false} DataSetLength(id: u16, flows: seq<Flow>, count: nat, size: u16)
    requires |flows| == count
    requires (size == RECORD_SIZE_V4 && AllV4(flows)) || (size == RECORD_SIZE_V6 && AllV6(flows))
    ensures |DataSet(id, flows)| == SetLength(count, size)
    ensures count > 0 ==>
              DataSet(id, flows) == ToBytes(id, 2) + ToBytes(SET_HEADER_LEN + count * size, 2) + Payload(flows)
  {
    RecordsHaveSize(flows, size);
  }

  /** The length a message declares is the number of octets it has. */
  lemma {:induction false} PrintLength(m: Message)
    requires m.Typed()
    ensures |Print(m)| == m.Length()
  {
    RecordsHaveSize(m.v4, RECORD_SIZE_V4);
    RecordsHaveSize(m.v6, RECORD_SIZE_V6);
  }

  // ---- Splitting a batch into messages ----------------------------------------------------------------

  function V4Of(flows: seq<Flow>): (r: seq<Flow>)
    ensures AllV4(r)
  {
    if flows == [] then []
    else
      var front, last := flows[..|flows| - 1], flows[|flows| - 1];
      if last.key.addrs.V4? then V4Of(front) + [last] else V4Of(front)
  }

  function V6Of(flows: seq<Flow>): (r: seq<Flow>)
    ensures AllV6(r)
  {
    if flows == [] then []
    else
      var front, last := flows[..|flows| - 1], flows[|flows| - 1];
      if last.key.addrs.V6? then V6Of(front) + [last] else V6Of(front)
  }

  ghost predicate PickedAt(part: seq<Flow>, flows: seq<Flow>, v4: bool, idx: seq<nat>) {
    && Increasing(idx, |flows|) && |idx| == |part|
    && (forall k :: 0 <= k < |part| ==> part[k] == flows[idx[k]])
    && (forall t :: 0 <= t < |flows| ==> (t in idx <==> flows[t].key.addrs.V4? == v4))
  }

  /** `part` holds, in input order, exactly the v4 flows (or exactly the v6 flows) of the batch. */
  ghost predicate PickedInOrder(part: seq<Flow>, flows: seq<Flow>, v4: bool) {
    exists idx: seq<nat> :: PickedAt(part, flows, v4, idx)
  }

  lemma {:induction false} PickedNext(part: seq<Flow>, flows: seq<Flow>, v4: bool, idx: seq<nat>, last: Flow)
    requires PickedAt(part, flows, v4, idx)
    ensures if last.key.addrs.V4? == v4 then PickedAt(part + [last], flows + [last], v4, idx + [|flows|])
            else PickedAt(part, flows + [last], v4, idx)
  {
    var whole := flows + [last];
    if last.key.addrs.V4? == v4 {
      forall t | 0 <= t < |whole|
        ensures t in idx + [|flows|] <==> whole[t].key.addrs.V4? == v4
      {
        assert t < |flows| ==> whole[t] == flows[t];
      }
    } else {
      assert |flows| !in idx;
    }
  }

  lemma {:induction false} NonePicked()
    ensures PickedAt([], [], true, []) && PickedAt([], [], false, [])
  {
  }

  lemma {:induction false} FamiliesKeepOrder(flows: seq<Flow>)
    ensures PickedInOrder(V4Of(flows), flows, true) && PickedInOrder(V6Of(flows), flows, false)
  {
    hide PickedAt;
    if flows == [] {
      assert PickedAt([], [], true, []) && PickedAt([], [], false, []) by { NonePicked(); }
    } else {
      var front, last := flows[..|flows| - 1], flows[|flows| - 1];
      FamiliesKeepOrder(front);
      assert flows == front + [last];
      var i4: seq<nat> :| PickedAt(V4Of(front), front, true, i4);
      var i6: seq<nat> :| PickedAt(V6Of(front), front, false, i6);
      PickedNext(V4Of(front), front, true, i4, last);
      PickedNext(V6Of(front), front, false, i6, last);
    }
  }

  lemma {:induction false} MulMonotone(a: nat, b: nat, c: nat)
    requires a <= b
    ensures a * c <= b * c
  {
  }

  lemma {:induction false} FitsIff(budget: nat, size: nat, n: nat)
    requires size > 0
    ensures n <= budget / size <==> n * size <= budget
  {
    var q := budget / size;
    assert q * size <= budget < q * size + size;
    if n <= q {
      MulMonotone(n, q, size);
    } else {
      MulMonotone(q + 1, n, size);
    }
  }

  lemma {:induction false} SetHasRoom(count: nat, recordSize: u16)
    requires recordSize > 0
    ensures count <= SetLength(count, recordSize)
  {
    MulMonotone(1, recordSize, count);
  }

  /** The size of the next Data Set, in records, with every intermediate value clamped to 16 bits. */
  function TakeRecords(mtu: u16, remaining: nat, msgLen: u16, recordSize: u16): (take: u16)
    requires recordSize > 0
    ensures take <= remaining
  {
    var budget := Max(0, Max(0, mtu - msgLen) - SET_HEADER_LEN);
    var fit := budget / recordSize;
    assert 0 <= fit <= budget by {
      FitsIff(budget, recordSize, 0);
      FitsIff(budget, recordSize, fit);
      MulMonotone(1, recordSize, fit);
    }
    var remainingCapped := if remaining <= U16_MAX then remaining else U16_MAX;
    Min(fit, remainingCapped)
  }

  /** The number taken is the largest that fits: exactly the counts up to it stay within the MTU. */
  lemma {:induction false} TakeRecordsIsMaximal(mtu: u16, remaining: nat, msgLen: u16, recordSize: u16, n: nat)
    requires recordSize > 0 && n <= remaining
    ensures n <= TakeRecords(mtu, remaining, msgLen, recordSize)
       <==> n == 0 || msgLen + SetLength(n, recordSize) <= mtu
  {
    var budget := Max(0, Max(0, mtu - msgLen) - SET_HEADER_LEN);
    FitsIff(budget, recordSize, n);
    if n > 0 {
      MulMonotone(1, recordSize, n);
      MulMonotone(1, n, recordSize);
    }
  }

  function TakeV4(mtu: u16, remaining: nat, template: bool): (x: nat)
    ensures x <= remaining
    ensures PrefixLength(template) + SetLength(x, RECORD_SIZE_V4) <= U16_MAX
  {
    var x := TakeRecords(mtu, remaining, PrefixLength(template), RECORD_SIZE_V4);
    TakeRecordsIsMaximal(mtu, remaining, PrefixLength(template), RECORD_SIZE_V4, x);
    x
  }

  function TakeV6(mtu: u16, remaining: nat, template: bool, v4Taken: nat): (y: nat)
    requires PrefixLength(template) + SetLength(v4Taken, RECORD_SIZE_V4) <= U16_MAX
    ensures y <= remaining
  {
    TakeRecords(mtu, remaining, PrefixLength(template) + SetLength(v4Taken, RECORD_SIZE_V4), RECORD_SIZE_V6)
  }

  /** Progress: under the compile-time assertion a message takes at least one of the records still owed,
      even beside a template set and with the v4 records exhausted; and it stays within the MTU. */
  lemma {:induction false} FirstMessageProgress(mtu: u16, a: nat, b: nat, template: bool, x: nat, y: nat)
    requires MtuHolds(mtu)
    requires x == TakeV4(mtu, a, template) && y == TakeV6(mtu, b, template, x)
    ensures a + b > 0 ==> x + y > 0
    ensures PrefixLength(template) + SetLength(x, RECORD_SIZE_V4) + SetLength(y, RECORD_SIZE_V6) <= mtu
  {
    var msgLen := PrefixLength(template) + SetLength(x, RECORD_SIZE_V4);
    TakeRecordsIsMaximal(mtu, a, PrefixLength(template), RECORD_SIZE_V4, x);
    TakeRecordsIsMaximal(mtu, b, msgLen, RECORD_SIZE_V6, y);
    if a > 0 {
      TakeRecordsIsMaximal(mtu, a, PrefixLength(template), RECORD_SIZE_V4, 1);
    } else if b > 0 {
      TakeRecordsIsMaximal(mtu, b, msgLen, RECORD_SIZE_V6, 1);
    }
  }

  /** How many records of each family one message carries. */
  datatype Chunk = Chunk(v4: nat, v6: nat)

  function SumV4(plan: seq<Chunk>): nat {
    if plan == [] then 0 else plan[0].v4 + SumV4(plan[1..])
  }

  function SumV6(plan: seq<Chunk>): nat {
    if plan == [] then 0 else plan[0].v6 + SumV6(plan[1..])
  }

  /** The plan of a batch: each message takes as many v4 records as fit, then as many v6 records as still fit. */
  function Plan(mtu: u16, a: nat, b: nat, template: bool): (plan: seq<Chunk>)
    requires MtuHolds(mtu)
    ensures SumV4(plan) == a && SumV6(plan) == b
    ensures a + b == 0 ==> plan == []
    decreases a + b
  {
    if a == 0 && b == 0 then []
    else
      var x := TakeV4(mtu, a, template);
      var y := TakeV6(mtu, b, template, x);
      FirstMessageProgress(mtu, a, b, template, x, y);
      [Chunk(x, y)] + Plan(mtu, a - x, b - y, false)
  }

  lemma {:induction false} PlanStep(mtu: u16, a: nat, b: nat, template: bool, x: nat, y: nat)
    requires MtuHolds(mtu) && a + b > 0
    requires x == TakeV4(mtu, a, template) && y == TakeV6(mtu, b, template, x)
    ensures x + y > 0
    ensures Plan(mtu, a, b, template) == [Chunk(x, y)] + Plan(mtu, a - x, b - y, false)
  {
    hide TakeV4, TakeV6, SumV4, SumV6;
    FirstMessageProgress(mtu, a, b, template, x, y);
  }

  /** What is the same in every message of a batch. */
  datatype Stamp = Stamp(exportTime: u32, odid: u32)

  /** Cut the records along a plan; a template set, if wanted, goes into the first message. */
  function Cut(plan: seq<Chunk>, v4: seq<Flow>, v6: seq<Flow>, sequence: u32, template: bool, stamp: Stamp)
    : (ms: seq<Message>)
    requires SumV4(plan) == |v4| && SumV6(plan) == |v6|
    ensures |ms| == |plan|
  {
    if plan == [] then []
    else
      var Chunk(x, y) := plan[0];
      [Message(stamp.exportTime, sequence, stamp.odid, template, v4[..x], v6[..y])]
      + Cut(plan[1..], v4[x..], v6[y..], WrappingAdd(sequence, x + y), false, stamp)
  }

  /** The first message of a plan, and the plan left over for the other records. */
  lemma {:induction false} CutHead(plan: seq<Chunk>, v4: seq<Flow>, v6: seq<Flow>, sequence: u32, template: bool,
                                   stamp: Stamp)
    requires plan != [] && SumV4(plan) == |v4| && SumV6(plan) == |v6|
    ensures var Chunk(x, y) := plan[0];
            && x <= |v4| && y <= |v6|
            && SumV4(plan[1..]) == |v4[x..]| && SumV6(plan[1..]) == |v6[y..]|
            && Cut(plan, v4, v6, sequence, template, stamp)
               == [Message(stamp.exportTime, sequence, stamp.odid, template, v4[..x], v6[..y])]
                  + Cut(plan[1..], v4[x..], v6[y..], WrappingAdd(sequence, x + y), false, stamp)
  {
    hide WrappingAdd;
  }

  /** The same, seen from the encoder's cursors. */
  lemma {:induction false} CutStep(plan: seq<Chunk>, v4: seq<Flow>, i: nat, v6: seq<Flow>, j: nat,
                                   sequence: u32, template: bool, stamp: Stamp, x: nat, y: nat)
    requires i <= |v4| && j <= |v6|
    requires plan != [] && plan[0] == Chunk(x, y)
    requires SumV4(plan) == |v4| - i && SumV6(plan) == |v6| - j
    ensures i + x <= |v4| && j + y <= |v6|
    ensures SumV4(plan[1..]) == |v4| - i - x && SumV6(plan[1..]) == |v6| - j - y
    ensures Cut(plan, v4[i..], v6[j..], sequence, template, stamp)
         == [Message(stamp.exportTime, sequence, stamp.odid, template, v4[i..i + x], v6[j..j + y])]
            + Cut(plan[1..], v4[i + x..], v6[j + y..], WrappingAdd(sequence, x + y), false, stamp)
  {
    SliceOfSuffix(v4, i, x);
    SliceOfSuffix(v6, j, y);
  }

  /** The messages still to come at the encoder's cursors. */
  function Remaining(mtu: u16, v4: seq<Flow>, i: nat, v6: seq<Flow>, j: nat, sequence: u32, template: bool,
                     stamp: Stamp): seq<Message>
    requires MtuHolds(mtu) && i <= |v4| && j <= |v6|
  {
    Cut(Plan(mtu, |v4| - i, |v6| - j, template), v4[i..], v6[j..], sequence, template, stamp)
  }

  lemma {:induction false} RemainingStep(mtu: u16, v4: seq<Flow>, i: nat, v6: seq<Flow>, j: nat, sequence: u32,
                                         template: bool, stamp: Stamp, x: nat, y: nat)
    requires MtuHolds(mtu) && i <= |v4| && j <= |v6| && (i < |v4| || j < |v6|)
    requires x == TakeV4(mtu, |v4| - i, template) && y == TakeV6(mtu, |v6| - j, template, x)
    ensures x + y > 0
    ensures Remaining(mtu, v4, i, v6, j, sequence, template, stamp)
         == [Message(stamp.exportTime, sequence, stamp.odid, template, v4[i..i + x], v6[j..j + y])]
            + Remaining(mtu, v4, i + x, v6, j + y, WrappingAdd(sequence, x + y), false, stamp)
  {
    hide Plan, Cut, SumV4, SumV6, TakeV4, TakeV6, WrappingAdd;
    PlanStep(mtu, |v4| - i, |v6| - j, template, x, y);
    var plan := Plan(mtu, |v4| - i, |v6| - j, template);
    assert plan[1..] == Plan(mtu, |v4| - i - x, |v6| - j - y, false);
    CutStep(plan, v4, i, v6, j, sequence, template, stamp, x, y);
  }

  lemma {:induction false} NothingRemains(mtu: u16, v4: seq<Flow>, v6: seq<Flow>, sequence: u32, template: bool,
                                          stamp: Stamp)
    requires MtuHolds(mtu)
    ensures Remaining(mtu, v4, |v4|, v6, |v6|, sequence, template, stamp) == []
  {
  }

  /** The messages of a batch. */
  function Messages(mtu: u16, flows: seq<Flow>, sequence: u32, template: bool, stamp: Stamp): seq<Message>
    requires MtuHolds(mtu)
  {
    var v4, v6 := V4Of(flows), V6Of(flows);
    Cut(Plan(mtu, |v4|, |v6|, template), v4, v6, sequence, template, stamp)
  }

  // ---- The encoder ------------------------------------------------------------------------------------

  lemma {:induction false} OverwriteTwo(a: seq<byte>, b: seq<byte>, c: seq<byte>, d: seq<byte>, two: seq<byte>)
    requires |a| == |two| == 2
    ensures (a + [0, 0] + b + c + d)[2 := two[0]][3 := two[1]] == a + two + b + c + d
  {
  }

  lemma {:induction false} OverwritePrefix(front: seq<byte>, back: seq<byte>, two: seq<byte>)
    requires |front| >= 4 && |two| == 2
    ensures (front + back)[2 := two[0]][3 := two[1]] == front[2 := two[0]][3 := two[1]] + back
  {
  }

  /** Overwriting octets 2 and 3 of the placeholder header gives the message. */
  lemma {:induction false} BackPatch(placeholder: seq<byte>, data: seq<byte>, m: Message)
    requires placeholder == ToBytes(VERSION, 2) + [0, 0]
                            + ToBytes(m.exportTime, 4) + ToBytes(m.sequence, 4) + ToBytes(m.odid, 4)
    requires data == placeholder + TemplateSetIf(m.template)
                     + DataSet(TEMPLATE_ID_V4, m.v4) + DataSet(TEMPLATE_ID_V6, m.v6)
    ensures var len := ToBytes(m.Length(), 2);
            data[2 := len[0]][3 := len[1]] == Print(m)
  {
    var len := ToBytes(m.Length(), 2);
    var t, d4, d6 := TemplateSetIf(m.template), DataSet(TEMPLATE_ID_V4, m.v4), DataSet(TEMPLATE_ID_V6, m.v6);
    OverwriteTwo(ToBytes(VERSION, 2), ToBytes(m.exportTime, 4), ToBytes(m.sequence, 4), ToBytes(m.odid, 4), len);
    OverwritePrefix(placeholder, t, len);
    OverwritePrefix(placeholder + t, d4, len);
    OverwritePrefix(placeholder + t + d4, d6, len);
  }

  method WriteRecords(out: ByteVec, flows: seq<Flow>)
    modifies out
    ensures out.data == old(out.data) + Payload(flows)
  {
    hide RecordBytes;
    ghost var before := out.data;
    for i := 0 to |flows|
      invariant out.data == before + Payload(flows[..i])
    {
      PayloadSnoc(flows[..i], flows[i]);
      ConcatAssoc(before, Payload(flows[..i]), RecordBytes(flows[i]));
      assert flows[..i + 1] == flows[..i] + [flows[i]];
      WriteRecord(out, flows[i].key, flows[i].val);
    }
    assert flows[..|flows|] == flows;
  }

  method WriteSetHeader(out: ByteVec, setId: u16, payloadLen: u16)
    requires SET_HEADER_LEN + payloadLen <= U16_MAX
    modifies out
    ensures out.data == old(out.data) + ToBytes(setId, 2) + ToBytes(SET_HEADER_LEN + payloadLen, 2)
  {
    out.Extend(ToBytes(setId, 2));
    out.Extend(ToBytes(SET_HEADER_LEN + payloadLen, 2));
  }

  /** Appends the Data Set of a prefix of the records past the cursor, and moves the cursor and the running length by
      exactly what was appended. */
  method PackSet(mtu: u16, buf: ByteVec, flows: seq<Flow>, idx: nat, templateId: u16, recordSize: u16, msgLen: u16)
    returns (take: u16, newIdx: nat, newLen: u16)
    requires idx <= |flows|
    requires (recordSize == RECORD_SIZE_V4 && AllV4(flows)) || (recordSize == RECORD_SIZE_V6 && AllV6(flows))
    requires |buf.data| == msgLen
    modifies buf
    ensures take == TakeRecords(mtu, |flows| - idx, msgLen, recordSize)
    ensures newIdx == idx + take
    ensures newLen == msgLen + SetLength(take, recordSize) == |buf.data|
    ensures buf.data == old(buf.data) + DataSet(templateId, flows[idx..newIdx])
  {
    hide TakeRecords, ToBytes, DataSet, Payload;
    take := TakeRecords(mtu, |flows| - idx, msgLen, recordSize);
    TakeRecordsIsMaximal(mtu, |flows| - idx, msgLen, recordSize, take);
    DataSetLength(templateId, flows[idx..idx + take], take, recordSize);
    if take == 0 {
      return 0, idx, msgLen;
    }
    newIdx := idx + take;
    var payloadLen: u16 := take * recordSize;
    WriteSetHeader(buf, templateId, payloadLen);
    WriteRecords(buf, flows[idx..newIdx]);
    newLen := msgLen + SET_HEADER_LEN + payloadLen;
  }

  /** One turn of the encode loop. `msgLen` equals the length of the buffer around both `PackSet` calls. */
  method BuildMessage(mtu: u16, v4: seq<Flow>, v4Idx: nat, v6: seq<Flow>, v6Idx: nat, sequence: u32,
                      includeTemplateSet: bool, nowUnix: u32, odid: u32)
    returns (datagram: seq<byte>, new4: nat, new6: nat, recordsInMsg: u16)
    requires MtuHolds(mtu)
    requires v4Idx <= |v4| && v6Idx <= |v6| && AllV4(v4) && AllV6(v6)
    ensures new4 == v4Idx + TakeV4(mtu, |v4| - v4Idx, includeTemplateSet)
    ensures new6 == v6Idx + TakeV6(mtu, |v6| - v6Idx, includeTemplateSet, new4 - v4Idx)
    ensures recordsInMsg == (new4 - v4Idx) + (new6 - v6Idx)
    ensures datagram == Print(Message(nowUnix, sequence, odid, includeTemplateSet, v4[v4Idx..new4], v6[v6Idx..new6]))
  {
    hide Print, TakeRecords, ToBytes, TemplateSet, DataSet, AllV4, AllV6, MtuHolds, SetLength;
    var buf := new ByteVec();
    var msgLen: u16 := MSG_HEADER_LEN;

    buf.Extend(ToBytes(VERSION, 2));
    buf.Extend([0, 0]);
    buf.Extend(ToBytes(nowUnix, 4));
    buf.Extend(ToBytes(sequence, 4));
    buf.Extend(ToBytes(odid, 4));
    ghost var placeholder := buf.data;

    if includeTemplateSet {
      WriteTemplateSet(buf);
      msgLen := msgLen + TEMPLATE_SET_LEN;
    }
    assert buf.data == placeholder + TemplateSetIf(includeTemplateSet) && msgLen == PrefixLength(includeTemplateSet);

    var taken4: u16, taken6: u16;
    taken4, new4, msgLen := PackSet(mtu, buf, v4, v4Idx, TEMPLATE_ID_V4, RECORD_SIZE_V4, msgLen);
    assert msgLen == PrefixLength(includeTemplateSet) + SetLength(taken4, RECORD_SIZE_V4);
    taken6, new6, msgLen := PackSet(mtu, buf, v6, v6Idx, TEMPLATE_ID_V6, RECORD_SIZE_V6, msgLen);
    SetHasRoom(taken4, RECORD_SIZE_V4);
    SetHasRoom(taken6, RECORD_SIZE_V6);
    recordsInMsg := taken4 + taken6;
    ghost var message := Message(nowUnix, sequence, odid, includeTemplateSet, v4[v4Idx..new4], v6[v6Idx..new6]);
    assert msgLen == message.Length();
    BackPatch(placeholder, buf.data, message);

    var lenBytes := ToBytes(msgLen, 2);
    buf.Set(2, lenBytes[0]);
    buf.Set(3, lenBytes[1]);
    datagram := buf.data;
  }

  lemma {:induction false} StartOfLoop(mtu: u16, v4: seq<Flow>, v6: seq<Flow>, sequence: u32, template: bool,
                                       stamp: Stamp)
    requires MtuHolds(mtu)
    ensures var all := Remaining(mtu, v4, 0, v6, 0, sequence, template, stamp);
            && all == Cut(Plan(mtu, |v4|, |v6|, template), v4, v6, sequence, template, stamp)
            && all == [] + all
    ensures PrintAll([]) == [] && WrappingAdd(sequence, 0) == sequence
  {
    hide Plan, Cut;
    assert v4[0..] == v4 && v6[0..] == v6;
  }

  /** The encode loop, over the two cursors. */
  method BuildFrom(mtu: u16, v4: seq<Flow>, v6: seq<Flow>, seqStart: u32, includeTemplate: bool, nowUnix: u32,
                   odid: u32)
    returns (datagrams: seq<seq<byte>>, newSeq: u32)
    requires MtuHolds(mtu) && AllV4(v4) && AllV6(v6)
    ensures datagrams == PrintAll(Cut(Plan(mtu, |v4|, |v6|, includeTemplate), v4, v6, seqStart, includeTemplate,
                                      Stamp(nowUnix, odid)))
    ensures newSeq == WrappingAdd(seqStart, |v4| + |v6|)
  {
    hide Print, PrintAll, Remaining, TakeV4, TakeV6, WrappingAdd, MtuHolds, AllV4, AllV6, Plan, Cut;
    datagrams, newSeq := [], seqStart;
    var v4Idx: nat, v6Idx: nat := 0, 0;
    var includeTemplateSet := includeTemplate;
    ghost var stamp, done := Stamp(nowUnix, odid), [];
    ghost var all := Remaining(mtu, v4, 0, v6, 0, seqStart, includeTemplate, stamp);
    StartOfLoop(mtu, v4, v6, seqStart, includeTemplate, stamp);

    while v4Idx < |v4| || v6Idx < |v6|
      invariant v4Idx <= |v4| && v6Idx <= |v6|
      invariant all == done + Remaining(mtu, v4, v4Idx, v6, v6Idx, newSeq, includeTemplateSet, stamp)
      invariant datagrams == PrintAll(done)
      invariant newSeq == WrappingAdd(seqStart, v4Idx + v6Idx)
      decreases (|v4| - v4Idx) + (|v6| - v6Idx)
    {
      var buf, new4, new6, recordsInMsg :=
        BuildMessage(mtu, v4, v4Idx, v6, v6Idx, newSeq, includeTemplateSet, nowUnix, odid);
      ghost var message := Message(nowUnix, newSeq, odid, includeTemplateSet, v4[v4Idx..new4], v6[v6Idx..new6]);
      RemainingStep(mtu, v4, v4Idx, v6, v6Idx, newSeq, includeTemplateSet, stamp, new4 - v4Idx, new6 - v6Idx);
      WrappingAddTwice(seqStart, v4Idx + v6Idx, recordsInMsg);
      PrintAllSnoc(done, message);

      v4Idx, v6Idx, includeTemplateSet := new4, new6, false;
      newSeq := WrappingAdd(newSeq, recordsInMsg);
      datagrams := datagrams + [buf];
      ConcatAssoc(done, [message], Remaining(mtu, v4, v4Idx, v6, v6Idx, newSeq, false, stamp));
      done := done + [message];
    }
    NothingRemains(mtu, v4, v6, newSeq, includeTemplateSet, stamp);
    ConcatEmpty(done);
  }

  lemma {:induction false} SplitNext(flows: seq<Flow>, i: nat)
    requires i < |flows|
    ensures V4Of(flows[..i + 1]) == V4Of(flows[..i]) + if flows[i].key.addrs.V4? then [flows[i]] else []
    ensures V6Of(flows[..i + 1]) == V6Of(flows[..i]) + if flows[i].key.addrs.V6? then [flows[i]] else []
  {
    assert flows[..i + 1][..i] == flows[..i];
  }

  lemma {:induction false} SplitNothing()
    ensures V4Of([]) == [] && V6Of([]) == []
  {
  }

  method BuildDatagrams(mtu: u16, flows: seq<Flow>, seqStart: u32, includeTemplate: bool, nowUnix: u32, odid: u32)
    returns (datagrams: seq<seq<byte>>, newSeq: u32)
    requires MtuHolds(mtu)
    ensures datagrams == PrintAll(Messages(mtu, flows, seqStart, includeTemplate, Stamp(nowUnix, odid)))
    ensures newSeq == WrappingAdd(seqStart, |flows|)
  {
    hide PrintAll, Cut, Plan, WrappingAdd, MtuHolds, V4Of, V6Of;
    var v4, v6 := [], [];
    SplitNothing();
    for i := 0 to |flows|
      invariant v4 == V4Of(flows[..i]) && v6 == V6Of(flows[..i])
      invariant |v4| + |v6| == i
    {
      SplitNext(flows, i);
      match flows[i].key.addrs {
        case V4(_, _) => v4 := v4 + [flows[i]];
        case V6(_, _) => v6 := v6 + [flows[i]];
      }
    }
    assert flows[..|flows|] == flows;
    datagrams, newSeq := BuildFrom(mtu, v4, v6, seqStart, includeTemplate, nowUnix, odid);
  }
}
