/** The flow table (src/flow.rs): packet by packet aggregation and a destructive drain, proved to refine a fold
    over the packets recorded since the last drain. */
module FlowTables {
  import opened Basics
  import opened Flows

  type Table = map<FlowKey, FlowVal>

  // ---- Specification ----------------------------------------------------------------------------------

  function SaturatingAdd(a: u64, b: u64): u64 {
    Min(a + b, U64_MAX)
  }

  function FirstKnown<T>(known: Option<T>, next: Option<T>): Option<T> {
    if known.None? then next else known
  }

  function Accumulate(val: FlowVal, packet: FlowVal): FlowVal {
    FlowVal(
      SaturatingAdd(val.bytes, packet.bytes),
      SaturatingAdd(val.packets, packet.packets),
      FirstKnown(val.srcMac, packet.srcMac),
      FirstKnown(val.dstMac, packet.dstMac),
      FirstKnown(val.vlanId, packet.vlanId),
      val.etherType,
      val.direction,
      Min(val.firstSeenMs, packet.firstSeenMs),
      Max(val.lastSeenMs, packet.lastSeenMs))
  }

  function RecordInto(t: Table, packet: Flow): Table {
    t[packet.key := if packet.key in t then Accumulate(t[packet.key], packet.val) else packet.val]
  }

  /** The table after recording `log` into an empty one. */
  function Fold(log: seq<Flow>): Table {
    if log == [] then map[] else RecordInto(Fold(log[..|log| - 1]), log[|log| - 1])
  }

  // ---- The table --------------------------------------------------------------------------------------

  class FlowTable {
    var inner: Table
    /** The packets recorded since the last drain. */
    ghost var log: seq<Flow>

    ghost predicate Valid()
      reads this
    {
      inner == Fold(log)
    }

    constructor ()
      ensures Valid() && log == [] && inner == map[]
    {
      inner, log := map[], [];
    }

    method Record(key: FlowKey, packet: FlowVal)
      requires Valid()
      modifies this
      ensures Valid()
      ensures log == old(log) + [Flow(key, packet)]
      ensures inner == RecordInto(old(inner), Flow(key, packet))
    {
      FoldSnoc(log, Flow(key, packet));
      if key in inner {
        var val := inner[key];
        val := val.(bytes := SaturatingAdd(val.bytes, packet.bytes));
        val := val.(packets := SaturatingAdd(val.packets, packet.packets));
        if val.srcMac.None? {
          val := val.(srcMac := packet.srcMac);
        }
        if val.dstMac.None? {
          val := val.(dstMac := packet.dstMac);
        }
        if val.vlanId.None? {
          val := val.(vlanId := packet.vlanId);
        }
        if packet.firstSeenMs < val.firstSeenMs {
          val := val.(firstSeenMs := packet.firstSeenMs);
        }
        if packet.lastSeenMs > val.lastSeenMs {
          val := val.(lastSeenMs := packet.lastSeenMs);
        }
        inner := inner[key := val];
      } else {
        inner := inner[key := packet];
      }
      log := log + [Flow(key, packet)];
    }

    method Drain() returns (drained: Table)
      requires Valid()
      modifies this
      ensures Valid()
      ensures drained == old(inner) == Fold(old(log))
      ensures inner == map[] && log == []
    {
      drained := inner;
      inner, log := map[], [];
    }
  }

  lemma {:induction false} FoldSnoc(log: seq<Flow>, packet: Flow)
    ensures Fold(log + [packet]) == RecordInto(Fold(log), packet)
  {
    ConcatFront(log, [packet]);
    assert [packet][..0] == [];
    ConcatEmpty(log);
  }

  // ---- What an entry says about the packets of its key ------------------------------------------------

  datatype Counter = Bytes | Packets {
    function Of(val: FlowVal): u64 {
      if Bytes? then val.bytes else val.packets
    }
  }

  type Selector = FlowKey -> bool

  function OnlyKey(key: FlowKey): Selector {
    (k: FlowKey) => k == key
  }

  /** The total over the packets or flows whose key is selected. */
  function Total(c: Counter, log: seq<Flow>, sel: Selector): nat {
    if log == [] then 0
    else
      var last := log[|log| - 1];
      Total(c, log[..|log| - 1], sel) + if sel(last.key) then c.Of(last.val) else 0
  }

  ghost predicate IsEarliest(log: seq<Flow>, key: FlowKey, t: u64) {
    && (exists i :: 0 <= i < |log| && log[i].key == key && log[i].val.firstSeenMs == t)
    && (forall i :: 0 <= i < |log| && log[i].key == key ==> t <= log[i].val.firstSeenMs)
  }

  ghost predicate IsLatest(log: seq<Flow>, key: FlowKey, t: u64) {
    && (exists i :: 0 <= i < |log| && log[i].key == key && log[i].val.lastSeenMs == t)
    && (forall i :: 0 <= i < |log| && log[i].key == key ==> log[i].val.lastSeenMs <= t)
  }

  /** `known` is what the first packet of the key to tell it told, or nothing if none did. */
  ghost predicate IsFirstTold<T(!new)>(log: seq<Flow>, key: FlowKey, told: FlowVal -> Option<T>, known: Option<T>) {
    if known.None? then
      forall i :: 0 <= i < |log| && log[i].key == key ==> told(log[i].val) == None
    else
      exists i :: 0 <= i < |log| && log[i].key == key && told(log[i].val) == known
                  && forall j :: 0 <= j < i && log[j].key == key ==> told(log[j].val) == None
  }

  // What a packet tells of the properties its flow keeps from the first packet to tell them. Every packet has an
  // EtherType, and a direction setting, of its own.

  function SrcMacOf(v: FlowVal): Option<Mac> { v.srcMac }

  function DstMacOf(v: FlowVal): Option<Mac> { v.dstMac }

  function VlanOf(v: FlowVal): Option<u16> { v.vlanId }

  function EtherTypeOf(v: FlowVal): Option<u16> { Some(v.etherType) }

  function DirectionOf(v: FlowVal): Option<Option<FlowDirection>> { Some(v.direction) }

  /** The entry of a key summarises its packets: saturated sums, the earliest and latest timestamps, the first
      MAC addresses and VLAN told, and the EtherType and direction of the first packet. */
  ghost predicate Summarises(log: seq<Flow>, key: FlowKey, val: FlowVal) {
    && val.bytes == Min(0xFFFF_FFFF_FFFF_FFFF, Total(Bytes, log, OnlyKey(key)))
    && val.packets == Min(0xFFFF_FFFF_FFFF_FFFF, Total(Packets, log, OnlyKey(key)))
    && IsEarliest(log, key, val.firstSeenMs)
    && IsLatest(log, key, val.lastSeenMs)
    && IsFirstTold(log, key, SrcMacOf, val.srcMac)
    && IsFirstTold(log, key, DstMacOf, val.dstMac)
    && IsFirstTold(log, key, VlanOf, val.vlanId)
    && IsFirstTold(log, key, EtherTypeOf, Some(val.etherType))
    && IsFirstTold(log, key, DirectionOf, Some(val.direction))
  }

  lemma {:induction false} FirstToldStep<T(!new)>(log: seq<Flow>, key: FlowKey, told: FlowVal -> Option<T>,
                                                  known: Option<T>)
    requires log != []
    requires IsFirstTold(log[..|log| - 1], key, told, known)
    ensures var p := log[|log| - 1];
            IsFirstTold(log, key, told, if p.key == key then FirstKnown(known, told(p.val)) else known)
  {
    var n := |log| - 1;
    assert forall i :: 0 <= i < n ==> log[..n][i] == log[i];
  }

  lemma {:induction false} TimesStep(log: seq<Flow>, key: FlowKey, first: u64, last: u64)
    requires log != []
    requires IsEarliest(log[..|log| - 1], key, first) && IsLatest(log[..|log| - 1], key, last)
    ensures var p := log[|log| - 1];
            && IsEarliest(log, key, if p.key == key then Min(first, p.val.firstSeenMs) else first)
            && IsLatest(log, key, if p.key == key then Max(last, p.val.lastSeenMs) else last)
  {
    var n := |log| - 1;
    assert forall i :: 0 <= i < n ==> log[..n][i] == log[i];
  }

  lemma {:induction false} Unseen(log: seq<Flow>, key: FlowKey)
    ensures key in Fold(log) <==> exists i :: 0 <= i < |log| && log[i].key == key
    ensures key !in Fold(log) ==> Total(Bytes, log, OnlyKey(key)) == 0 && Total(Packets, log, OnlyKey(key)) == 0
  {
    if log == [] {
    } else {
      var n := |log| - 1;
      Unseen(log[..n], key);
      if key in Fold(log[..n]) {
        var i :| 0 <= i < n && log[..n][i].key == key;
        assert log[i].key == key;
      }
    }
  }

  lemma {:induction false} FirstPacket(log: seq<Flow>, key: FlowKey)
    requires log != [] && log[|log| - 1].key == key
    requires forall i :: 0 <= i < |log| - 1 ==> log[i].key != key
    requires Total(Bytes, log[..|log| - 1], OnlyKey(key)) == 0 && Total(Packets, log[..|log| - 1], OnlyKey(key)) == 0
    ensures Summarises(log, key, log[|log| - 1].val)
  {
    var n := |log| - 1;
    assert forall i :: 0 <= i < n ==> log[..n][i] == log[i];
  }

  /** Refinement: the keys of the table are exactly the keys recorded since the last drain, and each entry
      summarises that key's packets. */
  lemma {:induction false} TableSummarisesLog(log: seq<Flow>, key: FlowKey)
    ensures key in Fold(log) <==> exists i :: 0 <= i < |log| && log[i].key == key
    ensures key in Fold(log) ==> Summarises(log, key, Fold(log)[key])
  {
    hide IsEarliest, IsLatest, IsFirstTold;
    Unseen(log, key);
    if log == [] {
    } else if key in Fold(log) {
      var n := |log| - 1;
      var front, p := log[..n], log[n];
      if key in Fold(front) {
        TableSummarisesLog(front, key);
        var val := Fold(front)[key];
        TimesStep(log, key, val.firstSeenMs, val.lastSeenMs);
        FirstToldStep(log, key, SrcMacOf, val.srcMac);
        FirstToldStep(log, key, DstMacOf, val.dstMac);
        FirstToldStep(log, key, VlanOf, val.vlanId);
        FirstToldStep(log, key, EtherTypeOf, Some(val.etherType));
        FirstToldStep(log, key, DirectionOf, Some(val.direction));
      } else {
        Unseen(front, key);
        assert forall i :: 0 <= i < n ==> log[i] == front[i];
        FirstPacket(log, key);
      }
    }
  }

  // ---- Order of packets and placement of drains -------------------------------------------------------

  lemma {:induction false} TotalConcat(c: Counter, a: seq<Flow>, b: seq<Flow>, sel: Selector)
    ensures Total(c, a + b, sel) == Total(c, a, sel) + Total(c, b, sel)
  {
    if b == [] {
      ConcatEmpty(a);
    } else {
      ConcatFront(a, b);
      TotalConcat(c, a, b[..|b| - 1], sel);
    }
  }

  lemma {:induction false} TotalOfOne(c: Counter, p: Flow, sel: Selector)
    ensures Total(c, [p], sel) == if sel(p.key) then c.Of(p.val) else 0
  {
    assert [p][..0] == [];
  }

  lemma {:induction false} TotalWithout(c: Counter, log: seq<Flow>, i: nat, sel: Selector)
    requires i < |log|
    ensures Total(c, log, sel)
         == Total(c, log[..i] + log[i + 1..], sel) + if sel(log[i].key) then c.Of(log[i].val) else 0
  {
    hide Total;
    var front, back := log[..i], log[i + 1..];
    assert log == front + ([log[i]] + back);
    TotalConcat(c, front, [log[i]] + back, sel);
    TotalConcat(c, [log[i]], back, sel);
    TotalConcat(c, front, back, sel);
    TotalOfOne(c, log[i], sel);
  }

  lemma {:induction false} MultisetWithout<T>(s: seq<T>, i: nat)
    requires i < |s|
    ensures multiset(s[..i] + s[i + 1..]) == multiset(s) - multiset{s[i]}
  {
    assert s == s[..i] + ([s[i]] + s[i + 1..]);
    assert multiset(s) == multiset(s[..i]) + (multiset{s[i]} + multiset(s[i + 1..]));
  }

  lemma {:induction false} TotalOfPermutation(c: Counter, a: seq<Flow>, b: seq<Flow>, sel: Selector)
    requires multiset(a) == multiset(b)
    ensures Total(c, a, sel) == Total(c, b, sel)
  {
    hide Total;
    if a == [] {
      assert |b| == |multiset(b)|;
    } else {
      var n := |a| - 1;
      assert a[n] in multiset(b);
      var i :| 0 <= i < |b| && b[i] == a[n];
      MultisetWithout(a, n);
      MultisetWithout(b, i);
      assert a[..n] + a[n + 1..] == a[..n];
      TotalOfPermutation(c, a[..n], b[..i] + b[i + 1..], sel);
      TotalWithout(c, a, n, sel);
      TotalWithout(c, b, i, sel);
    }
  }

  lemma {:induction false} SamePackets(a: seq<Flow>, b: seq<Flow>)
    requires multiset(a) == multiset(b)
    ensures forall i :: 0 <= i < |a| ==> a[i] in b
  {
    forall i | 0 <= i < |a|
      ensures a[i] in b
    {
      assert a[i] in multiset(a);
    }
  }

  lemma {:induction false} SameTimes(a: seq<Flow>, b: seq<Flow>, key: FlowKey, s: u64, t: u64, u: u64, v: u64)
    requires forall i :: 0 <= i < |a| ==> a[i] in b
    requires forall i :: 0 <= i < |b| ==> b[i] in a
    requires IsEarliest(a, key, s) && IsEarliest(b, key, t)
    requires IsLatest(a, key, u) && IsLatest(b, key, v)
    ensures s == t && u == v
  {
  }

  /** Permuting the packets between two drains keeps the keys, and for each key the counters and timestamps. */
  lemma {:induction false} PacketOrderDoesNotMatter(a: seq<Flow>, b: seq<Flow>, key: FlowKey)
    requires multiset(a) == multiset(b)
    ensures key in Fold(a) <==> key in Fold(b)
    ensures key in Fold(a) ==>
              var x, y := Fold(a)[key], Fold(b)[key];
              && x.bytes == y.bytes && x.packets == y.packets
              && x.firstSeenMs == y.firstSeenMs && x.lastSeenMs == y.lastSeenMs
  {
    hide IsEarliest, IsLatest, IsFirstTold, Total, Fold;
    TableSummarisesLog(a, key);
    TableSummarisesLog(b, key);
    TotalOfPermutation(Bytes, a, b, OnlyKey(key));
    TotalOfPermutation(Packets, a, b, OnlyKey(key));
    SamePackets(a, b);
    SamePackets(b, a);
    if key in Fold(a) {
      SameTimes(a, b, key, Fold(a)[key].firstSeenMs, Fold(b)[key].firstSeenMs,
                Fold(a)[key].lastSeenMs, Fold(b)[key].lastSeenMs);
    }
  }

  /** All packets of the key that tell the property tell the same. */
  ghost predicate Agree<T(!new)>(log: seq<Flow>, key: FlowKey, told: FlowVal -> Option<T>) {
    forall i, j :: 0 <= i < |log| && 0 <= j < |log| && log[i].key == key && log[j].key == key
                   && told(log[i].val).Some? && told(log[j].val).Some? ==>
                     told(log[i].val) == told(log[j].val)
  }

  /** In every order of the packets the entry of the key holds the same property. */
  ghost predicate AnyOrderKeeps<T(!new)>(log: seq<Flow>, key: FlowKey, told: FlowVal -> Option<T>)
    requires key in Fold(log)
  {
    forall b: seq<Flow> :: multiset(b) == multiset(log) ==>
      key in Fold(b) && told(Fold(b)[key]) == told(Fold(log)[key])
  }

  lemma {:induction false} FirstToldIsUnique<T(!new)>(log: seq<Flow>, key: FlowKey, told: FlowVal -> Option<T>,
                                                      x: Option<T>, y: Option<T>)
    requires IsFirstTold(log, key, told, x) && IsFirstTold(log, key, told, y)
    ensures x == y
  {
  }

  lemma {:induction false} AgreedIsKept<T(!new)>(a: seq<Flow>, b: seq<Flow>, key: FlowKey,
                                                 told: FlowVal -> Option<T>, x: Option<T>, y: Option<T>)
    requires multiset(a) == multiset(b)
    requires Agree(a, key, told)
    requires IsFirstTold(a, key, told, x) && IsFirstTold(b, key, told, y)
    ensures x == y
  {
    SamePackets(a, b);
    SamePackets(b, a);
  }

  /** The packet at `i` recorded before all others. */
  function ToFront(log: seq<Flow>, i: nat): (r: seq<Flow>)
    requires i < |log|
    ensures multiset(r) == multiset(log)
  {
    MultisetWithout(log, i);
    assert log[i] in multiset(log);
    [log[i]] + (log[..i] + log[i + 1..])
  }

  lemma {:induction false} FrontIsToldFirst<T(!new)>(log: seq<Flow>, i: nat, key: FlowKey,
                                                     told: FlowVal -> Option<T>)
    requires i < |log| && log[i].key == key && told(log[i].val).Some?
    ensures IsFirstTold(ToFront(log, i), key, told, told(log[i].val))
  {
    assert ToFront(log, i)[0] == log[i];
  }

  lemma {:induction false} DisagreementShows<T(!new)>(log: seq<Flow>, key: FlowKey, told: FlowVal -> Option<T>,
                                                      x: Option<T>) returns (i: nat)
    requires !Agree(log, key, told) && IsFirstTold(log, key, told, x)
    ensures i < |log| && log[i].key == key && told(log[i].val).Some? && told(log[i].val) != x
  {
    var j, k :| 0 <= j < |log| && 0 <= k < |log| && log[j].key == key && log[k].key == key
                && told(log[j].val).Some? && told(log[k].val).Some? && told(log[j].val) != told(log[k].val);
    i := if told(log[j].val) != x then j else k;
  }

  /** The table keeps, of a property, what the first packet of the key to tell it told. */
  ghost predicate KeepsFirst<T(!new)>(key: FlowKey, told: FlowVal -> Option<T>) {
    forall log: seq<Flow> :: key in Fold(log) ==> IsFirstTold(log, key, told, told(Fold(log)[key]))
  }

  lemma {:induction false} OrderMattersOnDisagreement<T(!new)>(log: seq<Flow>, key: FlowKey,
                                                               told: FlowVal -> Option<T>)
    requires key in Fold(log) && KeepsFirst(key, told)
    ensures AnyOrderKeeps(log, key, told) <==> Agree(log, key, told)
  {
    hide Fold, IsFirstTold, Agree;
    var x := told(Fold(log)[key]);
    if Agree(log, key, told) {
      forall b: seq<Flow> | multiset(b) == multiset(log)
        ensures key in Fold(b) && told(Fold(b)[key]) == x
      {
        PacketOrderDoesNotMatter(log, b, key);
        AgreedIsKept(log, b, key, told, x, told(Fold(b)[key]));
      }
    } else {
      var i := DisagreementShows(log, key, told, x);
      var b := ToFront(log, i);
      PacketOrderDoesNotMatter(log, b, key);
      FrontIsToldFirst(log, i, key, told);
      FirstToldIsUnique(b, key, told, told(Fold(b)[key]), told(log[i].val));
    }
  }

  /** Exactly when packet order matters: in every order of the packets between two drains an entry has the same
      source MAC, destination MAC, VLAN, or EtherType, if and only if all packets of its key that tell one tell
      the same one. */
  lemma {:induction false} PacketOrderDecides(log: seq<Flow>, key: FlowKey)
    requires key in Fold(log)
    ensures AnyOrderKeeps(log, key, SrcMacOf) <==> Agree(log, key, SrcMacOf)
    ensures AnyOrderKeeps(log, key, DstMacOf) <==> Agree(log, key, DstMacOf)
    ensures AnyOrderKeeps(log, key, VlanOf) <==> Agree(log, key, VlanOf)
    ensures AnyOrderKeeps(log, key, EtherTypeOf) <==> Agree(log, key, EtherTypeOf)
  {
    hide Fold, IsFirstTold, Agree, AnyOrderKeeps;
    forall l: seq<Flow>
      ensures key in Fold(l) ==> Summarises(l, key, Fold(l)[key])
    {
      TableSummarisesLog(l, key);
    }
    OrderMattersOnDisagreement(log, key, SrcMacOf);
    OrderMattersOnDisagreement(log, key, DstMacOf);
    OrderMattersOnDisagreement(log, key, VlanOf);
    OrderMattersOnDisagreement(log, key, EtherTypeOf);
  }

  /** Merge two drained maps: saturating sums, earliest, latest and first known. */
  function Merge(m1: Table, m2: Table): Table {
    map k | k in m1.Keys + m2.Keys ::
      if k !in m2 then m1[k] else if k !in m1 then m2[k] else Accumulate(m1[k], m2[k])
  }

  lemma {:induction false} AccumulateAssoc(a: FlowVal, b: FlowVal, c: FlowVal)
    ensures Accumulate(Accumulate(a, b), c) == Accumulate(a, Accumulate(b, c))
  {
  }

  lemma {:induction false} MergeRecord(m1: Table, m2: Table, p: Flow)
    ensures Merge(m1, RecordInto(m2, p)) == RecordInto(Merge(m1, m2), p)
  {
    if p.key in m1 && p.key in m2 {
      AccumulateAssoc(m1[p.key], m2[p.key], p.val);
    }
  }

  /** An extra drain changes nothing: merging the two maps it splits a table into gives the map a single drain
      would have produced. */
  lemma {:induction false} ExtraDrainMerges(a: seq<Flow>, b: seq<Flow>)
    ensures Merge(Fold(a), Fold(b)) == Fold(a + b)
  {
    if b == [] {
      ConcatEmpty(a);
      assert Merge(Fold(a), map[]) == Fold(a);
    } else {
      var n := |b| - 1;
      ExtraDrainMerges(a, b[..n]);
      MergeRecord(Fold(a), Fold(b[..n]), b[n]);
      ConcatFront(a, b);
    }
  }
}
