/** What the batch encoder's packing achieves: a stable partition of the batch, well-formed messages, the fewest
    datagrams for the order of records it keeps, and exact datagram counts. */
module Packing {
  import opened Basics
  import opened Flows
  import opened Templates
  import opened Encoder

  // ---- Partition --------------------------------------------------------------------------------------

  function AllRecordsV4(ms: seq<Message>): seq<Flow> {
    if ms == [] then [] else ms[0].v4 + AllRecordsV4(ms[1..])
  }

  function AllRecordsV6(ms: seq<Message>): seq<Flow> {
    if ms == [] then [] else ms[0].v6 + AllRecordsV6(ms[1..])
  }

  function RecordTotal(ms: seq<Message>): nat {
    if ms == [] then 0 else RecordTotal(ms[..|ms| - 1]) + ms[|ms| - 1].RecordCount()
  }

  lemma {:induction false} RecordTotalConcat(a: seq<Message>, b: seq<Message>)
    ensures RecordTotal(a + b) == RecordTotal(a) + RecordTotal(b)
  {
    if b == [] {
      ConcatEmpty(a);
    } else {
      ConcatFront(a, b);
      RecordTotalConcat(a, b[..|b| - 1]);
    }
  }

  lemma {:induction false} NothingPlanned()
    ensures SumV4([]) == 0 && SumV6([]) == 0
  {
  }

  lemma {:induction false} CutKeepsRecords(plan: seq<Chunk>, v4: seq<Flow>, v6: seq<Flow>, sequence: u32,
                                           template: bool, stamp: Stamp)
    requires SumV4(plan) == |v4| && SumV6(plan) == |v6|
    ensures AllRecordsV4(Cut(plan, v4, v6, sequence, template, stamp)) == v4
    ensures AllRecordsV6(Cut(plan, v4, v6, sequence, template, stamp)) == v6
  {
    hide WrappingAdd, SumV4, SumV6;
    if plan == [] {
      assert v4 == [] && v6 == [] by { NothingPlanned(); }
    } else {
      var Chunk(x, y) := plan[0];
      CutHead(plan, v4, v6, sequence, template, stamp);
      CutKeepsRecords(plan[1..], v4[x..], v6[y..], WrappingAdd(sequence, x + y), false, stamp);
      assert v4 == v4[..x] + v4[x..] && v6 == v6[..y] + v6[y..];
    }
  }

  lemma {:induction false} RecordTotalByFamily(ms: seq<Message>)
    ensures RecordTotal(ms) == |AllRecordsV4(ms)| + |AllRecordsV6(ms)|
  {
    if ms == [] {
    } else {
      RecordTotalByFamily(ms[1..]);
      RecordTotalConcat(ms[..1], ms[1..]);
      assert ms == ms[..1] + ms[1..] && ms[..1][..0] == [];
    }
  }

  lemma {:induction false} SlicesAreTyped(v4: seq<Flow>, x: nat, v6: seq<Flow>, y: nat)
    requires x <= |v4| && y <= |v6|
    ensures AllV4(v4) ==> AllV4(v4[..x]) && AllV4(v4[x..])
    ensures AllV6(v6) ==> AllV6(v6[..y]) && AllV6(v6[y..])
  {
  }

  /** Each message carries the chunk of the plan at its position, under the batch's stamp, with the template set
      in the first message only. */
  lemma {:induction false} CutMessageAt(plan: seq<Chunk>, v4: seq<Flow>, v6: seq<Flow>, sequence: u32,
                                        template: bool, stamp: Stamp, i: nat)
    requires SumV4(plan) == |v4| && SumV6(plan) == |v6| && i < |plan|
    ensures var m := Cut(plan, v4, v6, sequence, template, stamp)[i];
            && |m.v4| == plan[i].v4 && |m.v6| == plan[i].v6
            && m.template == (template && i == 0)
            && m.exportTime == stamp.exportTime && m.odid == stamp.odid
            && (AllV4(v4) && AllV6(v6) ==> m.Typed())
  {
    hide WrappingAdd, SumV4, SumV6, Cut, AllV4, AllV6;
    var Chunk(x, y) := plan[0];
    CutHead(plan, v4, v6, sequence, template, stamp);
    SlicesAreTyped(v4, x, v6, y);
    if i == 0 {
    } else {
      CutMessageAt(plan[1..], v4[x..], v6[y..], WrappingAdd(sequence, x + y), false, stamp, i - 1);
    }
  }

  /** Each message's sequence number is the number of records, modulo 2^32, in the messages before it. */
  ghost predicate Numbered(ms: seq<Message>, sequence: u32) {
    forall i :: 0 <= i < |ms| ==> ms[i].sequence == WrappingAdd(sequence, RecordTotal(ms[..i]))
  }

  lemma {:induction false} NumberedConcat(a: seq<Message>, b: seq<Message>, sequence: u32)
    requires Numbered(a, sequence) && Numbered(b, WrappingAdd(sequence, RecordTotal(a)))
    ensures Numbered(a + b, sequence)
  {
    hide WrappingAdd, RecordTotal;
    forall i | 0 <= i < |a + b|
      ensures (a + b)[i].sequence == WrappingAdd(sequence, RecordTotal((a + b)[..i]))
    {
      if i < |a| {
        assert (a + b)[..i] == a[..i];
      } else {
        var j := i - |a|;
        assert (a + b)[..i] == a + b[..j];
        RecordTotalConcat(a, b[..j]);
        WrappingAddTwice(sequence, RecordTotal(a), RecordTotal(b[..j]));
      }
    }
  }

  lemma {:induction false} NumberedOne(m: Message)
    ensures RecordTotal([m]) == m.RecordCount() && Numbered([m], m.sequence)
  {
    assert [m][..0] == [];
    WrappingAddTwice(m.sequence, 0, 0);
  }

  lemma {:induction false} NumberedNone(sequence: u32)
    ensures Numbered([], sequence)
  {
  }

  lemma {:induction false} CutIsNumbered(plan: seq<Chunk>, v4: seq<Flow>, v6: seq<Flow>, sequence: u32,
                                         template: bool, stamp: Stamp)
    requires SumV4(plan) == |v4| && SumV6(plan) == |v6|
    ensures Numbered(Cut(plan, v4, v6, sequence, template, stamp), sequence)
  {
    hide WrappingAdd, Numbered, RecordTotal, SumV4, SumV6;
    if plan == [] {
      assert Numbered([], sequence) by { NumberedNone(sequence); }
    } else {
      CutHead(plan, v4, v6, sequence, template, stamp);
      var Chunk(x, y) := plan[0];
      var next := WrappingAdd(sequence, x + y);
      var m := Message(stamp.exportTime, sequence, stamp.odid, template, v4[..x], v6[..y]);
      CutIsNumbered(plan[1..], v4[x..], v6[y..], next, false, stamp);
      NumberedOne(m);
      NumberedConcat([m], Cut(plan[1..], v4[x..], v6[y..], next, false, stamp), sequence);
    }
  }

  /** No chunk carries v6 records while v4 records are still to come. */
  ghost predicate V4First(plan: seq<Chunk>) {
    forall i, j :: 0 <= i < j < |plan| && plan[i].v6 > 0 ==> plan[j].v4 == 0
  }

  /** The space left by a set that could not take all v4 records never holds a v6 set. */
  lemma {:induction false} FullV4LeavesNoRoom(mtu: u16, a: nat, b: nat, template: bool, x: nat, y: nat)
    requires x == TakeV4(mtu, a, template) && y == TakeV6(mtu, b, template, x)
    requires x < a
    ensures y == 0
  {
    TakeRecordsIsMaximal(mtu, a, PrefixLength(template), RECORD_SIZE_V4, x + 1);
    TakeRecordsIsMaximal(mtu, b, PrefixLength(template) + SetLength(x, RECORD_SIZE_V4), RECORD_SIZE_V6, y);
  }

  lemma {:induction false} ZeroSum(plan: seq<Chunk>)
    requires SumV4(plan) == 0
    ensures forall j :: 0 <= j < |plan| ==> plan[j].v4 == 0
  {
    if plan == [] {
    } else {
      ZeroSum(plan[1..]);
      assert forall j :: 0 < j < |plan| ==> plan[j] == plan[1..][j - 1];
    }
  }

  function ChunkLength(c: Chunk, template: bool): nat {
    PrefixLength(template) + SetLength(c.v4, RECORD_SIZE_V4) + SetLength(c.v6, RECORD_SIZE_V6)
  }

  /** Every chunk stays within the MTU, the first one beside the template set if there is one. */
  ghost predicate Fits(mtu: u16, plan: seq<Chunk>, template: bool) {
    forall i :: 0 <= i < |plan| ==> ChunkLength(plan[i], template && i == 0) <= mtu
  }

  /** A plan the wire format admits: v4 before v6, within the MTU, and no empty message. */
  ghost predicate Sound(mtu: u16, plan: seq<Chunk>, template: bool) {
    && V4First(plan)
    && Fits(mtu, plan, template)
    && forall i :: 0 <= i < |plan| ==> plan[i].v4 + plan[i].v6 > 0
  }

  lemma {:induction false} SoundEmpty(mtu: u16, template: bool)
    ensures Sound(mtu, [], template)
  {
  }

  lemma {:induction false} SoundCons(mtu: u16, c: Chunk, rest: seq<Chunk>, template: bool)
    requires Sound(mtu, rest, false)
    requires ChunkLength(c, template) <= mtu && c.v4 + c.v6 > 0
    requires c.v6 > 0 ==> SumV4(rest) == 0
    ensures Sound(mtu, [c] + rest, template)
  {
    hide SetLength, PrefixLength, SumV4;
    if c.v6 > 0 {
      ZeroSum(rest);
    }
    var plan := [c] + rest;
    assert forall i :: 0 < i < |plan| ==> plan[i] == rest[i - 1];
  }

  lemma {:induction false} PlanIsSound(mtu: u16, a: nat, b: nat, template: bool)
    requires MtuHolds(mtu)
    ensures Sound(mtu, Plan(mtu, a, b, template), template)
    decreases a + b
  {
    hide TakeV4, TakeV6, Fits, V4First;
    if a + b > 0 {
      var x := TakeV4(mtu, a, template);
      var y := TakeV6(mtu, b, template, x);
      PlanStep(mtu, a, b, template, x, y);
      FirstMessageProgress(mtu, a, b, template, x, y);
      PlanIsSound(mtu, a - x, b - y, false);
      if x < a {
        FullV4LeavesNoRoom(mtu, a, b, template, x, y);
      }
      SoundCons(mtu, Chunk(x, y), Plan(mtu, a - x, b - y, false), template);
    } else {
      assert Fits(mtu, [], template) && V4First([]) by { SoundEmpty(mtu, template); }
    }
  }

  // ---- What a batch becomes ---------------------------------------------------------------------------

  lemma {:induction false} MultisetByFamily(front: seq<Flow>, last: Flow)
    requires multiset(V4Of(front) + V6Of(front)) == multiset(front)
    ensures multiset(V4Of(front + [last]) + V6Of(front + [last])) == multiset(front + [last])
  {
    hide AllV4, AllV6;
    assert (front + [last])[..|front|] == front;
  }

  lemma {:induction false} SplitByFamily(flows: seq<Flow>)
    ensures multiset(V4Of(flows) + V6Of(flows)) == multiset(flows)
    ensures |V4Of(flows)| + |V6Of(flows)| == |flows|
  {
    if flows == [] {
    } else {
      SplitByFamily(flows[..|flows| - 1]);
      assert flows == flows[..|flows| - 1] + [flows[|flows| - 1]];
      MultisetByFamily(flows[..|flows| - 1], flows[|flows| - 1]);
    }
  }

  /** Stable partition: end to end, the data records of the messages are the v4 flows in input order and then
      the v6 flows in input order, each exactly once, and no message carries a v6 record while v4 records
      remain. */
  lemma {:induction false} BatchIsPartitioned(mtu: u16, flows: seq<Flow>, sequence: u32, template: bool, stamp: Stamp)
    requires MtuHolds(mtu)
    ensures var ms := Messages(mtu, flows, sequence, template, stamp);
            && AllRecordsV4(ms) == V4Of(flows) && AllRecordsV6(ms) == V6Of(flows)
            && PickedInOrder(AllRecordsV4(ms), flows, true) && PickedInOrder(AllRecordsV6(ms), flows, false)
            && multiset(AllRecordsV4(ms) + AllRecordsV6(ms)) == multiset(flows)
            && forall i, j :: 0 <= i < j < |ms| && ms[i].v6 != [] ==> ms[j].v4 == []
  {
    var v4, v6 := V4Of(flows), V6Of(flows);
    var plan := Plan(mtu, |v4|, |v6|, template);
    var ms := Messages(mtu, flows, sequence, template, stamp);
    FamiliesKeepOrder(flows);
    SplitByFamily(flows);
    CutKeepsRecords(plan, v4, v6, sequence, template, stamp);
    PlanIsSound(mtu, |v4|, |v6|, template);
    forall i | 0 <= i < |ms|
      ensures |ms[i].v4| == plan[i].v4 && |ms[i].v6| == plan[i].v6
    {
      CutMessageAt(plan, v4, v6, sequence, template, stamp, i);
    }
  }

  /** Every message of a batch is well formed: its octets number what its length field declares, within the MTU;
      each set holds records of its own family; there is at least one record; the template set is in the first
      message, exactly when requested. */
  lemma {:induction false} BatchMessageAt(mtu: u16, flows: seq<Flow>, sequence: u32, template: bool,
                                          stamp: Stamp, i: nat)
    requires MtuHolds(mtu)
    requires i < |Messages(mtu, flows, sequence, template, stamp)|
    ensures var ms := Messages(mtu, flows, sequence, template, stamp);
            && ms[i].Typed()
            && |Print(ms[i])| == ms[i].Length() <= mtu
            && ms[i].RecordCount() > 0
            && ms[i].template == (template && i == 0)
            && ms[i].exportTime == stamp.exportTime && ms[i].odid == stamp.odid
  {
    hide Print, WrappingAdd;
    var v4, v6 := V4Of(flows), V6Of(flows);
    var plan := Plan(mtu, |v4|, |v6|, template);
    CutMessageAt(plan, v4, v6, sequence, template, stamp, i);
    PlanIsSound(mtu, |v4|, |v6|, template);
    PrintLength(Messages(mtu, flows, sequence, template, stamp)[i]);
    assert ChunkLength(plan[i], template && i == 0) <= mtu;
  }

  /** Sequence numbers within a batch count data records, and data records only. */
  lemma {:induction false} BatchIsNumbered(mtu: u16, flows: seq<Flow>, sequence: u32, template: bool, stamp: Stamp)
    requires MtuHolds(mtu)
    ensures Numbered(Messages(mtu, flows, sequence, template, stamp), sequence)
    ensures RecordTotal(Messages(mtu, flows, sequence, template, stamp)) == |flows|
  {
    var v4, v6 := V4Of(flows), V6Of(flows);
    SplitByFamily(flows);
    CutKeepsRecords(Plan(mtu, |v4|, |v6|, template), v4, v6, sequence, template, stamp);
    CutIsNumbered(Plan(mtu, |v4|, |v6|, template), v4, v6, sequence, template, stamp);
    RecordTotalByFamily(Messages(mtu, flows, sequence, template, stamp));
  }

  // ---- Fewest datagrams -------------------------------------------------------------------------------

  lemma {:induction false} TakeV4IsMaximal(mtu: u16, a: nat, template: bool, n: nat)
    requires n <= a
    ensures n <= TakeV4(mtu, a, template)
       <==> n == 0 || PrefixLength(template) + SetLength(n, RECORD_SIZE_V4) <= mtu
  {
    TakeRecordsIsMaximal(mtu, a, PrefixLength(template), RECORD_SIZE_V4, n);
  }

  lemma {:induction false} TakeV6IsMaximal(mtu: u16, b: nat, template: bool, x: nat, n: nat)
    requires n <= b && PrefixLength(template) + SetLength(x, RECORD_SIZE_V4) <= U16_MAX
    ensures n <= TakeV6(mtu, b, template, x)
       <==> n == 0 || ChunkLength(Chunk(x, n), template) <= mtu
  {
    TakeRecordsIsMaximal(mtu, b, PrefixLength(template) + SetLength(x, RECORD_SIZE_V4), RECORD_SIZE_V6, n);
  }

  /** Greedy stays ahead: from any position at or beyond another plan's, the greedy chunk ends at or beyond
      where the other plan's chunk ends. */
  lemma {:induction false} GreedyStaysAhead(mtu: u16, a: nat, b: nat, template: bool, x: nat, y: nat,
                                            a': nat, b': nat, c: Chunk)
    requires MtuHolds(mtu)
    requires x == TakeV4(mtu, a, template) && y == TakeV6(mtu, b, template, x)
    requires a <= a' && b <= b' && c.v4 <= a' && c.v6 <= b'
    requires ChunkLength(c, template) <= mtu
    requires c.v6 > 0 ==> c.v4 == a'
    ensures a - x <= a' - c.v4 && b - y <= b' - c.v6
  {
    hide TakeV4, TakeV6;
    var prefix := PrefixLength(template);
    if c.v4 <= a {
      assert c.v4 <= x by { TakeV4IsMaximal(mtu, a, template, c.v4); }
    } else {
      assert x == a by { TakeV4IsMaximal(mtu, a, template, a); }
    }
    if c.v6 > 0 {
      assert x == a by { TakeV4IsMaximal(mtu, a, template, a); }
      var n := Min(c.v6, b);
      assert n <= y by { TakeV6IsMaximal(mtu, b, template, x, n); }
    }
  }

  lemma {:induction false} SumOfZeros(plan: seq<Chunk>)
    requires forall j :: 0 <= j < |plan| ==> plan[j].v4 == 0
    ensures SumV4(plan) == 0
  {
    if plan == [] {
    } else {
      SumOfZeros(plan[1..]);
    }
  }

  lemma {:induction false} HeadFits(mtu: u16, plan: seq<Chunk>, template: bool)
    requires plan != [] && Fits(mtu, plan, template)
    ensures ChunkLength(plan[0], template) <= mtu
  {
    assert ChunkLength(plan[0], template && 0 == 0) <= mtu;
  }

  lemma {:induction false} TailFits(mtu: u16, plan: seq<Chunk>, template: bool)
    requires plan != [] && Fits(mtu, plan, template)
    ensures Fits(mtu, plan[1..], false)
  {
    hide ChunkLength;
    var rest := plan[1..];
    forall i | 0 <= i < |rest|
      ensures ChunkLength(rest[i], false && i == 0) <= mtu
    {
      assert rest[i] == plan[i + 1] && ChunkLength(plan[i + 1], template && i + 1 == 0) <= mtu;
    }
  }

  lemma {:induction false} HeadV4First(plan: seq<Chunk>)
    requires plan != [] && V4First(plan)
    ensures plan[0].v6 > 0 ==> SumV4(plan[1..]) == 0
  {
    if plan[0].v6 > 0 {
      SumOfZeros(plan[1..]);
    }
  }

  lemma {:induction false} TailV4First(plan: seq<Chunk>)
    requires plan != [] && V4First(plan)
    ensures V4First(plan[1..])
  {
    assert forall i :: 0 <= i < |plan| - 1 ==> plan[1..][i] == plan[i + 1];
  }

  lemma {:induction false} GreedyNeedsNoMore(mtu: u16, a: nat, b: nat, template: bool, other: seq<Chunk>)
    requires MtuHolds(mtu)
    requires a <= SumV4(other) && b <= SumV6(other)
    requires V4First(other) && Fits(mtu, other, template)
    ensures |Plan(mtu, a, b, template)| <= |other|
    decreases |other|
  {
    hide TakeV4, TakeV6, ChunkLength, Fits, V4First, Plan;
    if other == [] {
    } else if a + b == 0 {
      assert |Plan(mtu, a, b, template)| == 0;
    } else {
      var x := TakeV4(mtu, a, template);
      var y := TakeV6(mtu, b, template, x);
      PlanStep(mtu, a, b, template, x, y);
      HeadFits(mtu, other, template);
      HeadV4First(other);
      GreedyStaysAhead(mtu, a, b, template, x, y, SumV4(other), SumV6(other), other[0]);
      TailFits(mtu, other, template);
      TailV4First(other);
      GreedyNeedsNoMore(mtu, a - x, b - y, false, other[1..]);
    }
  }

  /** How many records of each family the messages carry. */
  function Chunks(ms: seq<Message>): (plan: seq<Chunk>)
    ensures |plan| == |ms|
    ensures SumV4(plan) == |AllRecordsV4(ms)| && SumV6(plan) == |AllRecordsV6(ms)|
    ensures forall i :: 0 <= i < |ms| ==> plan[i] == Chunk(|ms[i].v4|, |ms[i].v6|)
  {
    if ms == [] then [] else [Chunk(|ms[0].v4|, |ms[0].v6|)] + Chunks(ms[1..])
  }

  /** Fewest datagrams: any messages within the MTU that carry the batch's v4 records and then its v6 records,
      with the template set in the first when it was requested, are at least as many. */
  lemma {:induction false} BatchUsesFewestDatagrams(mtu: u16, flows: seq<Flow>, sequence: u32, template: bool,
                                                    stamp: Stamp, other: seq<Message>)
    requires MtuHolds(mtu)
    requires AllRecordsV4(other) == V4Of(flows) && AllRecordsV6(other) == V6Of(flows)
    requires forall i, j :: 0 <= i < j < |other| && other[i].v6 != [] ==> other[j].v4 == []
    requires forall i :: 0 <= i < |other| ==> other[i].Length() <= mtu
    requires template && other != [] ==> other[0].template
    ensures |Messages(mtu, flows, sequence, template, stamp)| <= |other|
  {
    var plan := Chunks(other);
    forall i | 0 <= i < |plan|
      ensures ChunkLength(plan[i], template && i == 0) <= mtu
    {
      assert other[i].Length() <= mtu;
    }
    assert Fits(mtu, plan, template);
    GreedyNeedsNoMore(mtu, |V4Of(flows)|, |V6Of(flows)|, template, plan);
  }

  // ---- Exact counts -----------------------------------------------------------------------------------

  /** The most records of one size a message can hold. */
  function Capacity(mtu: u16, template: bool, recordSize: u16): nat
    requires MtuHolds(mtu) && recordSize > 0
  {
    (mtu - PrefixLength(template) - SET_HEADER_LEN) / recordSize
  }

  function CeilDiv(n: nat, c: nat): nat
    requires c > 0
  {
    (n + c - 1) / c
  }

  lemma {:induction false} Distribute(a: nat, b: nat, c: nat)
    ensures (a + b) * c == a * c + b * c
  {
  }

  lemma {:induction false} CeilDivStep(n: nat, c: nat)
    requires c > 0 && n > 0
    ensures CeilDiv(n, c) == 1 + CeilDiv(Max(0, n - c), c)
  {
    var q := if n >= c then (n - 1) / c else 0;
    assert CeilDiv(Max(0, n - c), c) == q by {
      FitsIff(c - 1, c, 1);
    }
    assert q * c <= n - 1 < q * c + c by {
      if n >= c {
        FitsIff(n - 1, c, q);
        FitsIff(n - 1, c, q + 1);
        Distribute(q, 1, c);
      }
    }
    FitsIff(n + c - 1, c, q + 1);
    FitsIff(n + c - 1, c, q + 2);
    Distribute(q, 1, c);
    Distribute(q, 2, c);
  }

  /** Datagrams for `n` records of one family. */
  function DatagramCount(n: nat, first: nat, later: nat): nat
    requires later > 0
  {
    if n == 0 then 0 else 1 + CeilDiv(Max(0, n - first), later)
  }

  lemma {:induction false} TakeWithinCapacity(mtu: u16, n: nat, template: bool)
    requires MtuHolds(mtu)
    ensures TakeV4(mtu, n, template) == Min(n, Capacity(mtu, template, RECORD_SIZE_V4))
    ensures TakeV6(mtu, n, template, 0) == Min(n, Capacity(mtu, template, RECORD_SIZE_V6))
    ensures Capacity(mtu, template, RECORD_SIZE_V4) > 0 && Capacity(mtu, template, RECORD_SIZE_V6) > 0
  {
  }

  lemma {:induction false} CountStep(n: nat, c: nat)
    requires c > 0
    ensures DatagramCount(n, c, c) == CeilDiv(n, c)
  {
    if n == 0 {
      FitsIff(c - 1, c, 1);
    } else {
      CeilDivStep(n, c);
    }
  }

  /** Exact datagram counts for v6 batches, for every MTU. */
  lemma {:induction false} V6OnlyCount(mtu: u16, n: nat, template: bool)
    requires MtuHolds(mtu)
    ensures Capacity(mtu, false, RECORD_SIZE_V6) > 0
    ensures |Plan(mtu, 0, n, template)|
         == DatagramCount(n, Capacity(mtu, template, RECORD_SIZE_V6), Capacity(mtu, false, RECORD_SIZE_V6))
  {
    hide TakeV4, TakeV6, Capacity, CeilDiv;
    TakeWithinCapacity(mtu, n, template);
    TakeWithinCapacity(mtu, n, false);
    if n == 0 {
    } else {
      var y := TakeV6(mtu, n, template, TakeV4(mtu, 0, template));
      PlanStep(mtu, 0, n, template, 0, y);
      V6OnlyCount(mtu, n - y, false);
      CountStep(n - y, Capacity(mtu, false, RECORD_SIZE_V6));
    }
  }

  function Remainder(n: nat, c: nat): (r: nat)
    requires c > 0
    ensures r < c
  {
    n % c
  }

  lemma {:induction false} RemainderIsUnique(n: nat, c: nat, q: nat, r: nat)
    requires c > 0 && n == q * c + r && r < c
    ensures Remainder(n, c) == r
  {
    FitsIff(n, c, q);
    FitsIff(n, c, q + 1);
    Distribute(q, 1, c);
    assert n / c == q;
  }

  lemma {:induction false} RemainderStep(n: nat, c: nat)
    requires c > 0
    ensures n < c ==> Remainder(n, c) == n
    ensures n >= c ==> Remainder(n, c) == Remainder(n - c, c)
  {
    if n < c {
      RemainderIsUnique(n, c, 0, n);
    } else {
      var q, r := (n - c) / c, (n - c) % c;
      assert n - c == q * c + r;
      Distribute(q, 1, c);
      RemainderIsUnique(n, c, q + 1, r);
    }
  }

  /** The v4 records in the last of the datagrams that carry any. */
  function LastV4(a: nat, first: nat, later: nat): nat
    requires a > 0 && later > 0
  {
    if a <= first then a else Remainder(a - first - 1, later) + 1
  }

  lemma {:induction false} LastV4Fits(mtu: u16, a: nat, template: bool)
    requires MtuHolds(mtu) && a > 0
    ensures Capacity(mtu, false, RECORD_SIZE_V4) > 0 && Capacity(mtu, false, RECORD_SIZE_V6) > 0
    ensures var first := Capacity(mtu, template, RECORD_SIZE_V4);
            var last := LastV4(a, first, Capacity(mtu, false, RECORD_SIZE_V4));
            PrefixLength(template && a <= first) + SetLength(last, RECORD_SIZE_V4) <= mtu
  {
  }

  /** Datagrams for `a` v4 and `b` v6 records: those the v4 records need, and those the v6 records need that find no
      room beside the last of the v4 records. */
  function BatchCount(mtu: u16, a: nat, b: nat, template: bool): nat
    requires MtuHolds(mtu)
  {
    TakeWithinCapacity(mtu, a, template);
    TakeWithinCapacity(mtu, a, false);
    var first4, later4 := Capacity(mtu, template, RECORD_SIZE_V4), Capacity(mtu, false, RECORD_SIZE_V4);
    var first6, later6 := Capacity(mtu, template, RECORD_SIZE_V6), Capacity(mtu, false, RECORD_SIZE_V6);
    if a == 0 then DatagramCount(b, first6, later6)
    else
      LastV4Fits(mtu, a, template);
      var beside := TakeV6(mtu, b, template && a <= first4, LastV4(a, first4, later4));
      DatagramCount(a, first4, later4) + CeilDiv(b - beside, later6)
  }

  lemma {:induction false} LastV4Alone(a: nat, first: nat, later: nat)
    requires 0 < a <= first && later > 0
    ensures LastV4(a, first, later) == a
  {
  }

  lemma {:induction false} LastV4Step(a: nat, first: nat, later: nat)
    requires later > 0 && a > first
    ensures LastV4(a - first, later, later) == LastV4(a, first, later)
  {
    hide Remainder;
    RemainderStep(a - first - 1, later);
  }

  /** The exact number of datagrams of any batch, for every MTU. */
  lemma {:induction false} ExactCount(mtu: u16, a: nat, b: nat, template: bool)
    requires MtuHolds(mtu)
    ensures |Plan(mtu, a, b, template)| == BatchCount(mtu, a, b, template)
    decreases a
  {
    hide Plan, TakeV4, TakeV6, Capacity, CeilDiv, LastV4;
    TakeWithinCapacity(mtu, a, template);
    TakeWithinCapacity(mtu, a, false);
    var later4, later6 := Capacity(mtu, false, RECORD_SIZE_V4), Capacity(mtu, false, RECORD_SIZE_V6);
    if a == 0 {
      V6OnlyCount(mtu, b, template);
    } else {
      var x := TakeV4(mtu, a, template);
      var y := TakeV6(mtu, b, template, x);
      PlanStep(mtu, a, b, template, x, y);
      if x < a {
        FullV4LeavesNoRoom(mtu, a, b, template, x, y);
        ExactCount(mtu, a - x, b, false);
        LastV4Step(a, x, later4);
        CountStep(a - x, later4);
      } else {
        LastV4Alone(a, Capacity(mtu, template, RECORD_SIZE_V4), later4);
        V6OnlyCount(mtu, b - y, false);
        CountStep(b - y, later6);
        CountStep(0, later4);
      }
    }
  }

  /** Any batch becomes as many datagrams as its two record counts say. */
  lemma {:induction false} BatchIsCounted(mtu: u16, flows: seq<Flow>, sequence: u32, template: bool, stamp: Stamp)
    requires MtuHolds(mtu)
    ensures |Messages(mtu, flows, sequence, template, stamp)| == BatchCount(mtu, |V4Of(flows)|, |V6Of(flows)|, template)
  {
    hide Plan, BatchCount, V4Of, V6Of, Cut;
    ExactCount(mtu, |V4Of(flows)|, |V6Of(flows)|, template);
  }

  /** In particular for v4 batches. */
  lemma {:induction false} V4OnlyCount(mtu: u16, n: nat, template: bool)
    requires MtuHolds(mtu)
    ensures Capacity(mtu, false, RECORD_SIZE_V4) > 0
    ensures |Plan(mtu, n, 0, template)|
         == DatagramCount(n, Capacity(mtu, template, RECORD_SIZE_V4), Capacity(mtu, false, RECORD_SIZE_V4))
  {
    hide Plan, TakeV6, Capacity, CeilDiv, LastV4;
    TakeWithinCapacity(mtu, n, false);
    ExactCount(mtu, n, 0, template);
    CountStep(0, Capacity(mtu, false, RECORD_SIZE_V6));
  }

  lemma {:induction false} OneFamily(flows: seq<Flow>)
    ensures AllV4(flows) ==> |V4Of(flows)| == |flows| && |V6Of(flows)| == 0
    ensures AllV6(flows) ==> |V6Of(flows)| == |flows| && |V4Of(flows)| == 0
  {
    if flows == [] {
    } else {
      OneFamily(flows[..|flows| - 1]);
    }
  }

  /** The counts at the agent's MTU of 1200: 19 v4 or 13 v6 records a datagram, 17 or 12 beside the templates. */
  lemma {:induction false} DatagramCountsAt1200(flows: seq<Flow>, sequence: u32, stamp: Stamp)
    requires flows != []
    ensures AllV4(flows) ==>
              && |Messages(1200, flows, sequence, false, stamp)| == CeilDiv(|flows|, 19)
              && |Messages(1200, flows, sequence, true, stamp)| == 1 + CeilDiv(Max(0, |flows| - 17), 19)
    ensures AllV6(flows) ==>
              && |Messages(1200, flows, sequence, false, stamp)| == CeilDiv(|flows|, 13)
              && |Messages(1200, flows, sequence, true, stamp)| == 1 + CeilDiv(Max(0, |flows| - 12), 13)
  {
    hide CeilDiv, Plan;
    var n := |flows|;
    V4OnlyCount(1200, n, false);
    V4OnlyCount(1200, n, true);
    V6OnlyCount(1200, n, false);
    V6OnlyCount(1200, n, true);
    CountStep(n, 19);
    CountStep(n, 13);
    OneFamily(flows);
  }
}
