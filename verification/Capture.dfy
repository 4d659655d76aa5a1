/** The capture thread (src/capture.rs): what a packet contributes to the table, and the record-or-drain loop. */
module Captures {
  import opened Basics
  import opened Flows
  import opened FlowTables
  import opened Intervals

  /** What the packet parser extracts from a frame. */
  datatype ParsedPacket = ParsedPacket(
    srcMac: Option<Mac>,
    dstMac: Option<Mac>,
    vlanId: Option<u16>,
    etherType: u16,
    srcIp: IpAddr,
    dstIp: IpAddr,
    srcPort: Option<u16>,
    dstPort: Option<u16>,
    protocol: Protocol,
    bytesCount: u64)

  function DecodeAddrs(src: IpAddr, dst: IpAddr): Option<FlowAddrs> {
    match (src, dst)
    case (IpV4(s), IpV4(d)) => Some(V4(s, d))
    case (IpV6(s), IpV6(d)) => Some(V6(s, d))
    case _ => None
  }

  /** A frame the parser rejects, or whose addresses are of different families, contributes nothing. */
  function DecodePacket(parsed: Option<ParsedPacket>, tsMs: u64): Option<Flow> {
    if parsed == None then None
    else
      var p := parsed.value;
      match DecodeAddrs(p.srcIp, p.dstIp)
      case None => None
      case Some(addrs) =>
        Some(Flow(FlowKey(addrs, p.srcPort, p.dstPort, p.protocol),
                  FlowVal(p.bytesCount, 1, p.srcMac, p.dstMac, p.vlanId, p.etherType, None, tsMs, tsMs)))
  }

  /** What `next_packet` returns. */
  datatype NextPacket = Packet(parsed: Option<ParsedPacket>, tsMs: u64) | TimeoutExpired | CaptureError

  /** One turn of the capture loop: whether the drain interval has elapsed, whether the receiving thread still
      takes maps, and the next packet. */
  datatype Turn = Turn(drainDue: bool, receiverAlive: bool, next: NextPacket)

  function PacketOf(turn: Turn): Option<Flow> {
    if turn.next.Packet? then DecodePacket(turn.next.parsed, turn.next.tsMs) else None
  }

  /** The turn brought a frame whose addresses are of one family. */
  predicate HasFrame(turn: Turn) {
    && turn.next.Packet? && turn.next.parsed.Some?
    && turn.next.parsed.value.srcIp.IpV4? == turn.next.parsed.value.dstIp.IpV4?
  }

  /** The key is that of the frame the turn brought. */
  predicate IsKeyOf(turn: Turn, key: FlowKey)
    requires HasFrame(turn)
  {
    var p := turn.next.parsed.value;
    && (key.addrs.V4? ==> p.srcIp == IpV4(key.addrs.src4) && p.dstIp == IpV4(key.addrs.dst4))
    && (key.addrs.V6? ==> p.srcIp == IpV6(key.addrs.src6) && p.dstIp == IpV6(key.addrs.dst6))
    && key.srcPort == p.srcPort && key.dstPort == p.dstPort && key.protocol == p.protocol
  }

  /** The flow is that frame: its key, its octets, one packet, its link-layer properties, no direction, and its
      capture time twice. */
  predicate IsFrameOf(turn: Turn, f: Flow) {
    && HasFrame(turn) && IsKeyOf(turn, f.key)
    && var p := turn.next.parsed.value;
    && f.val.bytes == p.bytesCount && f.val.packets == 1
    && f.val.srcMac == p.srcMac && f.val.dstMac == p.dstMac && f.val.vlanId == p.vlanId
    && f.val.etherType == p.etherType && f.val.direction == None
    && f.val.firstSeenMs == turn.next.tsMs && f.val.lastSeenMs == turn.next.tsMs
  }

  /** A turn contributes the frame it brought, field by field, and nothing if it brought none. */
  lemma {:induction false} PacketIsFrame(turn: Turn)
    ensures PacketOf(turn).Some? <==> HasFrame(turn)
    ensures forall f :: PacketOf(turn) == Some(f) <==> IsFrameOf(turn, f)
  {
    if HasFrame(turn) {
      var f := PacketOf(turn).value;
      assert forall g :: IsFrameOf(turn, g) ==> g.key == f.key && g.val == f.val;
    }
  }

  /** The frames of some turns. */
  function Frames(turns: seq<Turn>): seq<Flow> {
    if turns == [] then []
    else
      Frames(turns[..|turns| - 1])
      + match PacketOf(turns[|turns| - 1])
        case None => []
        case Some(p) => [p]
  }

  /** They are, in order, the frames of exactly the turns that brought one. */
  ghost predicate FramesAt(frames: seq<Flow>, turns: seq<Turn>, idx: seq<nat>) {
    && Increasing(idx, |turns|) && |idx| == |frames|
    && (forall k :: 0 <= k < |frames| ==> IsFrameOf(turns[idx[k]], frames[k]))
    && (forall t :: 0 <= t < |turns| ==> (t in idx <==> HasFrame(turns[t])))
  }

  lemma {:induction false} FramesNext(frames: seq<Flow>, turns: seq<Turn>, idx: seq<nat>, last: Turn)
    requires FramesAt(frames, turns, idx)
    ensures if HasFrame(last) then
              PacketOf(last).Some? && FramesAt(frames + [PacketOf(last).value], turns + [last], idx + [|turns|])
            else PacketOf(last) == None && FramesAt(frames, turns + [last], idx)
  {
    hide IsFrameOf, HasFrame, PacketOf;
    PacketIsFrame(last);
    var whole := turns + [last];
    if HasFrame(last) {
      forall t | 0 <= t < |whole|
        ensures t in idx + [|turns|] <==> HasFrame(whole[t])
      {
        assert t < |turns| ==> whole[t] == turns[t];
      }
    } else {
      assert |turns| !in idx;
    }
  }

  lemma {:induction false} NoFrames()
    ensures Frames([]) == [] && FramesAt([], [], [])
  {
  }

  lemma {:induction false} FramesSnoc(turns: seq<Turn>, last: Turn)
    ensures Frames(turns + [last])
         == Frames(turns) + if PacketOf(last).Some? then [PacketOf(last).value] else []
  {
    hide PacketOf;
    assert (turns + [last])[..|turns|] == turns;
  }

  lemma {:induction false} FramesOfTurns(turns: seq<Turn>) returns (idx: seq<nat>)
    ensures FramesAt(Frames(turns), turns, idx)
  {
    hide FramesAt, Frames, HasFrame, PacketOf;
    NoFrames();
    if turns == [] {
      idx := [];
    } else {
      var front, last := turns[..|turns| - 1], turns[|turns| - 1];
      idx := FramesOfTurns(front);
      FramesNext(Frames(front), front, idx, last);
      FramesSnoc(front, last);
      assert turns == front + [last];
      if HasFrame(last) {
        idx := idx + [|front|];
      } else {
        ConcatEmpty(Frames(front));
      }
    }
  }

  /** What a turn does to the table: a drain if one is due, then a record if a packet was decoded. */
  function EventsOfTurn(turn: Turn): seq<Event> {
    (if turn.drainDue then [Drained] else [])
    + (match PacketOf(turn)
       case None => []
       case Some(p) => [Recorded(p)])
  }

  function EventsOf(turns: seq<Turn>): seq<Event> {
    if turns == [] then [] else EventsOf(turns[..|turns| - 1]) + EventsOfTurn(turns[|turns| - 1])
  }

  /** A turn in terms of intervals. */
  lemma {:induction false} TurnStep(turns: seq<Turn>, turn: Turn)
    ensures var before, after := EventsOf(turns), EventsOf(turns + [turn]);
            var kept := if turn.drainDue then [] else Open(before);
            && Open(after) == (if PacketOf(turn).Some? then kept + [PacketOf(turn).value] else kept)
            && Closed(after) == if turn.drainDue then Closed(before) + [Open(before)] else Closed(before)
  {
    hide Open, Closed, PacketOf;
    assert (turns + [turn])[..|turns|] == turns;
    var before := EventsOf(turns);
    var drained := before + if turn.drainDue then [Drained] else [];
    EventStep(before, Drained);
    ConcatEmpty(before);
    if PacketOf(turn).Some? {
      EventStep(drained, Recorded(PacketOf(turn).value));
      ConcatAssoc(before, if turn.drainDue then [Drained] else [], [Recorded(PacketOf(turn).value)]);
    } else {
      ConcatAssoc(before, if turn.drainDue then [Drained] else [], []);
      ConcatEmpty(drained);
    }
  }

  lemma {:induction false} StartOfHistory()
    ensures Open(EventsOf([])) == [] && FoldAll(Closed(EventsOf([]))) == []
  {
  }

  /** The turns at which a drain was due. */
  ghost predicate Cuts(turns: seq<Turn>, cuts: seq<nat>) {
    Increasing(cuts, |turns|) && forall t :: 0 <= t < |turns| ==> (t in cuts <==> turns[t].drainDue)
  }

  /** The first turn of the i-th interval: a drain comes before the packet of its own turn. */
  function From(cuts: seq<nat>, i: nat): nat
    requires i <= |cuts|
  {
    if i == 0 then 0 else cuts[i - 1]
  }

  /** The flows are the frames of the turns from `lo` to before `hi`. */
  ghost predicate Spans(turns: seq<Turn>, lo: nat, hi: nat, flows: seq<Flow>) {
    lo <= hi <= |turns| && flows == Frames(turns[lo..hi])
  }

  /** The closed intervals are the frames from one cut to the next, and the open one those from the last cut on. */
  ghost predicate CutInto(turns: seq<Turn>, cuts: seq<nat>, closed: seq<seq<Flow>>, open: seq<Flow>) {
    && Cuts(turns, cuts) && |closed| == |cuts|
    && (forall i :: 0 <= i < |cuts| ==> Spans(turns, From(cuts, i), cuts[i], closed[i]))
    && Spans(turns, From(cuts, |cuts|), |turns|, open)
  }

  lemma {:induction false} NoCuts()
    ensures CutInto([], [], [], []) && Open(EventsOf([])) == [] && Closed(EventsOf([])) == []
  {
  }

  lemma {:induction false} CutsNext(turns: seq<Turn>, cuts: seq<nat>, last: Turn)
    requires Cuts(turns, cuts)
    ensures Cuts(turns + [last], if last.drainDue then cuts + [|turns|] else cuts)
  {
    assert |turns| !in cuts;
    forall t | 0 <= t < |turns|
      ensures (turns + [last])[t] == turns[t]
    {
    }
  }

  lemma {:induction false} SpanStays(turns: seq<Turn>, lo: nat, hi: nat, flows: seq<Flow>, last: Turn)
    requires Spans(turns, lo, hi, flows)
    ensures Spans(turns + [last], lo, hi, flows)
  {
    hide Frames;
    assert (turns + [last])[lo..hi] == turns[lo..hi];
  }

  lemma {:induction false} SpanGrows(turns: seq<Turn>, lo: nat, flows: seq<Flow>, last: Turn)
    requires Spans(turns, lo, |turns|, flows)
    ensures Spans(turns + [last], lo, |turns| + 1, flows + if PacketOf(last).Some? then [PacketOf(last).value] else [])
  {
    hide Frames, PacketOf;
    assert turns[lo..|turns|] == turns[lo..] && (turns + [last])[lo..|turns| + 1] == turns[lo..] + [last];
    FramesSnoc(turns[lo..], last);
  }

  lemma {:induction false} NoSpan(turns: seq<Turn>)
    ensures Spans(turns, |turns|, |turns|, [])
  {
    assert turns[|turns|..|turns|] == [];
  }

  lemma {:induction false} NextTurn(turns: seq<Turn>, cuts: seq<nat>, closed: seq<seq<Flow>>, open: seq<Flow>,
                                    last: Turn)
    requires CutInto(turns, cuts, closed, open)
    requires !last.drainDue
    ensures CutInto(turns + [last], cuts, closed, open + if PacketOf(last).Some? then [PacketOf(last).value] else [])
  {
    hide Spans, PacketOf;
    CutsNext(turns, cuts, last);
    SpanGrows(turns, From(cuts, |cuts|), open, last);
    forall i | 0 <= i < |cuts|
      ensures Spans(turns + [last], From(cuts, i), cuts[i], closed[i])
    {
      SpanStays(turns, From(cuts, i), cuts[i], closed[i], last);
    }
  }

  lemma {:induction false} NextCut(turns: seq<Turn>, cuts: seq<nat>, closed: seq<seq<Flow>>, open: seq<Flow>,
                                   last: Turn)
    requires CutInto(turns, cuts, closed, open)
    requires last.drainDue
    ensures CutInto(turns + [last], cuts + [|turns|], closed + [open],
                    [] + if PacketOf(last).Some? then [PacketOf(last).value] else [])
  {
    hide Spans, PacketOf, Cuts;
    var cuts' := cuts + [|turns|];
    CutsNext(turns, cuts, last);
    NoSpan(turns);
    SpanGrows(turns, |turns|, [], last);
    SpanStays(turns, From(cuts, |cuts|), |turns|, open, last);
    forall i | 0 <= i < |cuts|
      ensures Spans(turns + [last], From(cuts', i), cuts'[i], (closed + [open])[i])
    {
      SpanStays(turns, From(cuts, i), cuts[i], closed[i], last);
    }
  }

  /** The loop's intervals, turn by turn. */
  lemma {:induction false} IntervalsOfTurns(turns: seq<Turn>) returns (cuts: seq<nat>)
    ensures CutInto(turns, cuts, Closed(EventsOf(turns)), Open(EventsOf(turns)))
  {
    hide CutInto, Closed, Open, EventsOf, PacketOf;
    NoCuts();
    if turns == [] {
      cuts := [];
    } else {
      var front, last := turns[..|turns| - 1], turns[|turns| - 1];
      var before := EventsOf(front);
      cuts := IntervalsOfTurns(front);
      TurnStep(front, last);
      assert turns == front + [last];
      ConcatEmpty(Open(before));
      ConcatEmpty<Flow>([]);
      if last.drainDue {
        NextCut(front, cuts, Closed(before), Open(before), last);
        cuts := cuts + [|front|];
      } else {
        NextTurn(front, cuts, Closed(before), Open(before), last);
      }
    }
  }

  /** The map has the keys of exactly the frames these turns brought, and its entries summarise them. */
  ghost predicate HoldsFrames(m: Table, turns: seq<Turn>) {
    && (forall t :: 0 <= t < |turns| && HasFrame(turns[t]) ==> exists k :: k in m && IsKeyOf(turns[t], k))
    && (forall k :: k in m ==>
          && (exists t :: 0 <= t < |turns| && HasFrame(turns[t]) && IsKeyOf(turns[t], k))
          && Summarises(Frames(turns), k, m[k]))
  }

  lemma {:induction false} FoldHoldsFrames(turns: seq<Turn>)
    ensures HoldsFrames(Fold(Frames(turns)), turns)
  {
    hide Fold, Frames, Summarises, HasFrame, IsKeyOf;
    var frames := Frames(turns);
    var idx := FramesOfTurns(turns);
    forall t | 0 <= t < |turns| && HasFrame(turns[t])
      ensures exists k :: k in Fold(frames) && IsKeyOf(turns[t], k)
    {
      var j :| 0 <= j < |idx| && idx[j] == t;
      TableSummarisesLog(frames, frames[j].key);
    }
    forall k | k in Fold(frames)
      ensures exists t :: 0 <= t < |turns| && HasFrame(turns[t]) && IsKeyOf(turns[t], k)
      ensures Summarises(frames, k, Fold(frames)[k])
    {
      TableSummarisesLog(frames, k);
      var j :| 0 <= j < |frames| && frames[j].key == k;
      assert IsFrameOf(turns[idx[j]], frames[j]);
    }
  }

  /** The map holds the frames of the turns from `lo` to before `hi`. */
  ghost predicate HoldsSpan(m: Table, turns: seq<Turn>, lo: nat, hi: nat) {
    lo <= hi <= |turns| && HoldsFrames(m, turns[lo..hi])
  }

  lemma {:induction false} FoldHoldsSpan(turns: seq<Turn>, lo: nat, hi: nat, flows: seq<Flow>)
    requires Spans(turns, lo, hi, flows)
    ensures HoldsSpan(Fold(flows), turns, lo, hi)
  {
    hide Fold, Frames, HoldsFrames;
    FoldHoldsFrames(turns[lo..hi]);
  }

  /** Each map sent holds the frames from one cut to the next. */
  ghost predicate SentHoldFrames(sent: seq<Table>, turns: seq<Turn>, cuts: seq<nat>) {
    && Cuts(turns, cuts) && |sent| == |cuts|
    && forall i :: 0 <= i < |sent| ==> HoldsSpan(sent[i], turns, From(cuts, i), cuts[i])
  }

  ghost predicate AllSentHoldFrames(sent: seq<Table>, turns: seq<Turn>) {
    exists cuts: seq<nat> :: SentHoldFrames(sent, turns, cuts)
  }

  ghost predicate SinceLastCut(turns: seq<Turn>, from: nat) {
    && from <= |turns|
    && (from > 0 ==> from < |turns| && turns[from].drainDue)
    && (forall t :: from < t < |turns| ==> !turns[t].drainDue)
  }

  /** The table holds the frames since the last cut. */
  ghost predicate HoldsLatest(m: Table, turns: seq<Turn>) {
    exists from: nat :: SinceLastCut(turns, from) && HoldsSpan(m, turns, from, |turns|)
  }

  lemma {:induction false} LastCut(turns: seq<Turn>, cuts: seq<nat>)
    requires Cuts(turns, cuts)
    ensures SinceLastCut(turns, From(cuts, |cuts|))
  {
    var from := From(cuts, |cuts|);
    if cuts != [] {
      assert from in cuts;
    }
    assert forall j :: 0 <= j < |cuts| ==> cuts[j] <= from;
    assert forall t :: t in cuts ==> t <= from;
  }

  lemma {:induction false} SentMapsHoldFrames(turns: seq<Turn>, cuts: seq<nat>, closed: seq<seq<Flow>>,
                                              open: seq<Flow>)
    requires CutInto(turns, cuts, closed, open)
    ensures SentHoldFrames(FoldAll(closed), turns, cuts)
  {
    hide Fold, Cuts, From, Spans, HoldsSpan;
    var sent := FoldAll(closed);
    forall i | 0 <= i < |sent|
      ensures HoldsSpan(sent[i], turns, From(cuts, i), cuts[i])
    {
      FoldHoldsSpan(turns, From(cuts, i), cuts[i], closed[i]);
    }
  }

  lemma {:induction false} MapsHoldFrames(turns: seq<Turn>)
    ensures AllSentHoldFrames(FoldAll(Closed(EventsOf(turns))), turns)
    ensures HoldsLatest(Fold(Open(EventsOf(turns))), turns)
  {
    hide Fold, FoldAll, Closed, Open, EventsOf, Spans, SinceLastCut, HoldsSpan, SentHoldFrames;
    var closed, open := Closed(EventsOf(turns)), Open(EventsOf(turns));
    var cuts := IntervalsOfTurns(turns);
    SentMapsHoldFrames(turns, cuts, closed, open);
    LastCut(turns, cuts);
    FoldHoldsSpan(turns, From(cuts, |cuts|), |turns|, open);
  }

  function Occurrences(log: seq<Flow>, key: FlowKey): nat {
    if log == [] then 0
    else Occurrences(log[..|log| - 1], key) + if log[|log| - 1].key == key then 1 else 0
  }

  /** One packet, seen once, with no direction. */
  predicate IsFrame(p: Flow) {
    p.val.packets == 1 && p.val.direction == None && p.val.firstSeenMs == p.val.lastSeenMs
  }

  lemma {:induction false} OpenHoldsFrames(turns: seq<Turn>)
    ensures forall i :: 0 <= i < |Open(EventsOf(turns))| ==> IsFrame(Open(EventsOf(turns))[i])
  {
    hide Open, EventsOf;
    if turns == [] {
      StartOfHistory();
    } else {
      var n := |turns| - 1;
      OpenHoldsFrames(turns[..n]);
      TurnStep(turns[..n], turns[n]);
      assert turns == turns[..n] + [turns[n]];
    }
  }

  lemma {:induction false} TotalOfFrames(log: seq<Flow>, key: FlowKey)
    requires forall i :: 0 <= i < |log| ==> IsFrame(log[i])
    ensures Total(Packets, log, OnlyKey(key)) == Occurrences(log, key)
  {
    if log == [] {
    } else {
      TotalOfFrames(log[..|log| - 1], key);
    }
  }

  lemma {:induction false} FirstDirection(log: seq<Flow>, key: FlowKey, val: FlowVal)
    requires forall i :: 0 <= i < |log| ==> IsFrame(log[i])
    requires Summarises(log, key, val)
    ensures val.direction == None && val.firstSeenMs <= val.lastSeenMs
  {
    hide Total;
  }

  /** How many of the turns brought a frame of the key. */
  function FrameCount(turns: seq<Turn>, key: FlowKey): nat {
    if turns == [] then 0
    else
      var last := turns[|turns| - 1];
      FrameCount(turns[..|turns| - 1], key) + if HasFrame(last) && IsKeyOf(last, key) then 1 else 0
  }

  lemma {:induction false} OccurrencesSnoc(log: seq<Flow>, p: Flow, key: FlowKey)
    ensures Occurrences(log + [p], key) == Occurrences(log, key) + if p.key == key then 1 else 0
  {
    assert (log + [p])[..|log|] == log;
  }

  lemma {:induction false} KeyOfFrame(turn: Turn, key: FlowKey)
    ensures PacketOf(turn).Some? ==> (PacketOf(turn).value.key == key <==> HasFrame(turn) && IsKeyOf(turn, key))
    ensures PacketOf(turn) == None ==> !HasFrame(turn)
  {
    PacketIsFrame(turn);
  }

  lemma {:induction false} NoOccurrences(key: FlowKey)
    ensures Occurrences(Frames([]), key) == 0
  {
  }

  lemma {:induction false} OccurrencesOfFrames(turns: seq<Turn>, key: FlowKey)
    ensures Occurrences(Frames(turns), key) == FrameCount(turns, key)
  {
    hide Frames, PacketOf, HasFrame, IsKeyOf, Occurrences;
    if turns == [] {
      assert Occurrences(Frames([]), key) == 0 by { NoOccurrences(key); }
    } else {
      var front, last := turns[..|turns| - 1], turns[|turns| - 1];
      OccurrencesOfFrames(front, key);
      KeyOfFrame(last, key);
      FramesSnoc(front, last);
      assert turns == front + [last];
      if PacketOf(last).Some? {
        OccurrencesSnoc(Frames(front), PacketOf(last).value, key);
      } else {
        ConcatEmpty(Frames(front));
      }
    }
  }

  /** The table's packet counters count frames: each entry's is the number of turns since the last drain that brought
      a frame of its key, up to 2^64 - 1; no entry has a direction yet, and none was last seen before it was first
      seen. */
  lemma {:induction false} PacketsCountFrames(turns: seq<Turn>, key: FlowKey) returns (from: nat)
    requires key in Fold(Open(EventsOf(turns)))
    ensures SinceLastCut(turns, from)
    ensures var val := Fold(Open(EventsOf(turns)))[key];
            && val.packets == Min(0xFFFF_FFFF_FFFF_FFFF, FrameCount(turns[from..], key))
            && val.direction == None
            && val.firstSeenMs <= val.lastSeenMs
  {
    hide Fold, IsFirstTold, Frames, FrameCount, Occurrences, Open, EventsOf;
    var log := Open(EventsOf(turns));
    var cuts := IntervalsOfTurns(turns);
    LastCut(turns, cuts);
    from := From(cuts, |cuts|);
    assert turns[from..|turns|] == turns[from..];
    OccurrencesOfFrames(turns[from..], key);
    TableSummarisesLog(log, key);
    OpenHoldsFrames(turns);
    TotalOfFrames(log, key);
    FirstDirection(log, key, Fold(log)[key]);
  }

  /** The loop, over any finite number of turns. It runs until the turns are used up or a drain finds the receiver
      gone; `done` turns are then completed, and `left` is what the table still holds. Each map sent is the fold of
      the packets of one interval. */
  method Run(turns: seq<Turn>) returns (left: Table, sent: seq<Table>, done: nat)
    ensures done <= |turns| && (forall i :: 0 <= i < done ==> turns[i].drainDue ==> turns[i].receiverAlive)
    ensures done < |turns| ==> turns[done].drainDue && !turns[done].receiverAlive && left == map[]
    ensures sent == FoldAll(Closed(EventsOf(turns[..done])))
    ensures done == |turns| ==> left == Fold(Open(EventsOf(turns)))
    ensures AllSentHoldFrames(sent, turns[..done])
    ensures done == |turns| ==> HoldsLatest(left, turns)
  {
    hide Fold, DecodePacket, FoldAll, Open, Closed, EventsOf, AllSentHoldFrames, HoldsLatest;
    StartOfHistory();
    var table := new FlowTable();
    sent, done := [], 0;
    while done < |turns|
      invariant done <= |turns| && fresh(table) && table.Valid()
      invariant forall i :: 0 <= i < done ==> turns[i].drainDue ==> turns[i].receiverAlive
      invariant sent == FoldAll(Closed(EventsOf(turns[..done]))) && table.log == Open(EventsOf(turns[..done]))
    {
      var turn := turns[done];
      assert turns[..done + 1] == turns[..done] + [turn];
      TurnStep(turns[..done], turn);
      if turn.drainDue {
        FoldAllSnoc(Closed(EventsOf(turns[..done])), Open(EventsOf(turns[..done])));
        var drained := table.Drain();
        if !turn.receiverAlive {
          MapsHoldFrames(turns[..done]);
          return table.inner, sent, done;
        }
        sent := sent + [drained];
      }
      match turn.next {
        case Packet(parsed, tsMs) =>
          var decoded := DecodePacket(parsed, tsMs);
          if decoded.Some? {
            table.Record(decoded.value.key, decoded.value.val);
          }
        case TimeoutExpired =>
        case CaptureError =>
      }
      done := done + 1;
    }
    assert turns[..done] == turns;
    MapsHoldFrames(turns);
    left := table.inner;
  }
}
