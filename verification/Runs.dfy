/** What a collector can conclude over whole runs of the exporter, on perfect and on lossy channels. */
module Runs {
  import opened Basics
  import opened BigEndian
  import opened Collectors
  import opened Encoder
  import opened Exporters
  import opened Flows
  import opened Packing
  import opened Records
  import opened RoundTrip

  function FlowTotal(calls: seq<FlushCall>): nat {
    if calls == [] then 0 else FlowTotal(calls[..|calls| - 1]) + |calls[|calls| - 1].flows|
  }

  // ---- Sequence numbers -------------------------------------------------------------------------------

  lemma {:induction false} FlushNumbers(cfg: Config, s: ExporterState, call: FlushCall)
    ensures Numbered(FlushMessages(cfg, s, call), s.sequence)
    ensures RecordTotal(FlushMessages(cfg, s, call)) == |call.flows|
    ensures AfterFlush(s, call).sequence == WrappingAdd(s.sequence, |call.flows|)
  {
    hide WrappingAdd, Messages;
    if call.flows == [] {
      NumberedNone(s.sequence);
      WrappingAddTwice(s.sequence, 0, 0);
    } else {
      BatchIsNumbered(cfg.mtu, call.flows, s.sequence, TemplateDue(s, call.decidedAt), Stamp(call.nowUnix, cfg.odid));
    }
  }

  lemma {:induction false} NoFlushes()
    ensures StateAfter([]) == CONNECTED && FlowTotal([]) == 0
  {
  }

  lemma {:induction false} StartOfRuns(cfg: Config)
    ensures Emitted(cfg, []) == [] && RecordTotal([]) == 0
  {
  }

  lemma {:induction false} FlowTotalSnoc(calls: seq<FlushCall>, call: FlushCall)
    ensures FlowTotal(calls + [call]) == FlowTotal(calls) + |call.flows|
  {
    assert (calls + [call])[..|calls|] == calls;
  }

  /** Over any run, each datagram's sequence number counts, modulo 2^32, the data records of all earlier
      datagrams, and the exporter's own counter is the sum of all batch sizes, whatever the sends did. */
  lemma {:induction false} RunIsNumbered(cfg: Config, calls: seq<FlushCall>)
    ensures Numbered(Emitted(cfg, calls), 0)
    ensures RecordTotal(Emitted(cfg, calls)) == FlowTotal(calls)
    ensures StateAfter(calls).sequence == WrappingAdd(0, FlowTotal(calls))
  {
    hide WrappingAdd, Numbered, FlushMessages, AfterFlush, Emitted, StateAfter, FlowTotal, RecordTotal;
    if calls == [] {
      StartOfRuns(cfg);
      NoFlushes();
      NumberedNone(0);
      WrappingAddTwice(0, 0, 0);
    } else {
      var before, last := calls[..|calls| - 1], calls[|calls| - 1];
      var ms := FlushMessages(cfg, StateAfter(before), last);
      RunIsNumbered(cfg, before);
      assert calls == before + [last];
      RunSnoc(cfg, before, last);
      FlowTotalSnoc(before, last);
      FlushNumbers(cfg, StateAfter(before), last);
      RecordTotalConcat(Emitted(cfg, before), ms);
      NumberedConcat(Emitted(cfg, before), ms, 0);
      WrappingAddTwice(0, FlowTotal(before), |last.flows|);
    }
  }

  // ---- Template refresh -------------------------------------------------------------------------------

  /** Flush `k` of the run finds a template send due. */
  predicate TemplateFlush(calls: seq<FlushCall>, k: nat)
    requires k < |calls|
  {
    calls[k].flows != [] && TemplateDue(StateAfter(calls[..k]), calls[k].decidedAt)
  }

  /** The clock never runs backwards. */
  ghost predicate MonotoneClock(calls: seq<FlushCall>) {
    && (forall i :: 0 <= i < |calls| ==> calls[i].decidedAt <= calls[i].recordedAt)
    && (forall i, j :: 0 <= i < j < |calls| ==> calls[i].recordedAt <= calls[j].decidedAt)
  }

  /** `last_template_send` holds the time of the latest template flush, or nothing before the first. */
  ghost predicate IsLatestTemplate(calls: seq<FlushCall>, sent: Option<Instant>) {
    match sent
    case None => forall j: nat :: j < |calls| ==> !TemplateFlush(calls, j)
    case Some(t) =>
      exists j: nat :: j < |calls| && TemplateFlush(calls, j) && t == calls[j].recordedAt
                       && forall i: nat :: j < i < |calls| ==> !TemplateFlush(calls, i)
  }

  lemma {:induction false} PrefixTemplateFlush(calls: seq<FlushCall>, k: nat, j: nat)
    requires j < k <= |calls|
    ensures TemplateFlush(calls[..k], j) == TemplateFlush(calls, j)
    ensures calls[..k][j] == calls[j]
  {
    assert calls[..k][..j] == calls[..j];
  }

  lemma {:induction false} LastTemplateSendStep(calls: seq<FlushCall>)
    requires calls != []
    ensures var n := |calls| - 1;
            StateAfter(calls).lastTemplateSend
            == if TemplateFlush(calls, n) then Some(calls[n].recordedAt) else StateAfter(calls[..n]).lastTemplateSend
  {
    hide WrappingAdd;
  }

  lemma {:induction false} LastTemplateSendIsLatest(calls: seq<FlushCall>)
    ensures IsLatestTemplate(calls, StateAfter(calls).lastTemplateSend)
  {
    hide StateAfter, TemplateFlush;
    if calls == [] {
      assert StateAfter([]) == CONNECTED by { NoFlushes(); }
    } else {
      var n := |calls| - 1;
      LastTemplateSendIsLatest(calls[..n]);
      LastTemplateSendStep(calls);
      forall j: nat | j < n
        ensures TemplateFlush(calls, j) == TemplateFlush(calls[..n], j) && calls[..n][j] == calls[j]
      {
        PrefixTemplateFlush(calls, n, j);
      }
    }
  }

  /** A Template Set is emitted by the template flushes and by no others, in their first datagram alone. */
  lemma {:induction false} TemplateSetsAreInTemplateFlushes(cfg: Config, calls: seq<FlushCall>, k: nat)
    requires k < |calls|
    ensures var ms := FlushMessages(cfg, StateAfter(calls[..k]), calls[k]);
            && (calls[k].flows == [] <==> ms == [])
            && forall i :: 0 <= i < |ms| ==> ms[i].template == (TemplateFlush(calls, k) && i == 0)
  {
    hide Print, WrappingAdd, Messages;
    var s, call := StateAfter(calls[..k]), calls[k];
    if call.flows != [] {
      var due, stamp := TemplateDue(s, call.decidedAt), Stamp(call.nowUnix, cfg.odid);
      var ms := Messages(cfg.mtu, call.flows, s.sequence, due, stamp);
      forall i | 0 <= i < |ms|
        ensures ms[i].template == (due && i == 0)
      {
        BatchMessageAt(cfg.mtu, call.flows, s.sequence, due, stamp, i);
      }
      BatchIsNumbered(cfg.mtu, call.flows, s.sequence, due, stamp);
    }
  }

  /** Flush `j` is the latest before `k` that carried the templates. */
  ghost predicate LatestBefore(calls: seq<FlushCall>, j: nat, k: nat)
    requires k <= |calls|
  {
    j < k && TemplateFlush(calls, j) && forall i: nat :: j < i < k ==> !TemplateFlush(calls, i)
  }

  lemma {:induction false} LatestIsRecorded(calls: seq<FlushCall>, k: nat, j: nat)
    requires k <= |calls| && LatestBefore(calls, j, k)
    ensures StateAfter(calls[..k]).lastTemplateSend == Some(calls[j].recordedAt)
  {
    hide StateAfter, TemplateFlush;
    LastTemplateSendIsLatest(calls[..k]);
    forall i: nat | i < k
      ensures TemplateFlush(calls[..k], i) == TemplateFlush(calls, i) && calls[..k][i] == calls[i]
    {
      PrefixTemplateFlush(calls, k, i);
    }
    assert TemplateFlush(calls[..k], j);
    if StateAfter(calls[..k]).lastTemplateSend != None {
      var l: nat :| l < k && TemplateFlush(calls[..k], l)
                    && StateAfter(calls[..k]).lastTemplateSend == Some(calls[..k][l].recordedAt)
                    && forall i: nat :: l < i < k ==> !TemplateFlush(calls[..k], i);
      assert l == j;
    }
  }

  lemma {:induction false} RecordedIsLatest(calls: seq<FlushCall>, k: nat) returns (j: nat)
    requires k <= |calls| && StateAfter(calls[..k]).lastTemplateSend != None
    ensures LatestBefore(calls, j, k)
  {
    hide StateAfter, TemplateFlush;
    LastTemplateSendIsLatest(calls[..k]);
    forall i: nat | i < k
      ensures TemplateFlush(calls[..k], i) == TemplateFlush(calls, i)
    {
      PrefixTemplateFlush(calls, k, i);
    }
    j :| j < k && TemplateFlush(calls[..k], j) && forall i: nat :: j < i < k ==> !TemplateFlush(calls[..k], i);
  }

  /** Whatever the clock: a non-empty flush carries the templates exactly when the latest flush before it that did,
      if there is one, recorded its send at least 30 s before this one decides. */
  lemma {:induction false} TemplateFlushIff(calls: seq<FlushCall>, k: nat)
    requires k < |calls|
    ensures TemplateFlush(calls, k)
       <==> && calls[k].flows != []
            && forall j: nat :: LatestBefore(calls, j, k) ==> calls[j].recordedAt + 30_000_000_000 <= calls[k].decidedAt
  {
    hide StateAfter;
    forall j: nat | LatestBefore(calls, j, k)
      ensures StateAfter(calls[..k]).lastTemplateSend == Some(calls[j].recordedAt)
    {
      LatestIsRecorded(calls, k, j);
    }
    if StateAfter(calls[..k]).lastTemplateSend != None {
      var j := RecordedIsLatest(calls, k);
    }
  }

  /** Refresh under a monotone clock: two template flushes are at least 30 s apart, from the recorded send of the
      one to the decision of the other; and every non-empty flush that carries no templates comes less than 30 s
      after the recorded send of an earlier flush that did. */
  lemma {:induction false} TemplateRefresh(calls: seq<FlushCall>, k: nat)
    requires MonotoneClock(calls) && k < |calls| && calls[k].flows != []
    ensures TemplateFlush(calls, k) ==>
              forall j: nat :: j < k && TemplateFlush(calls, j) ==>
                calls[j].recordedAt + 30_000_000_000 <= calls[k].decidedAt
    ensures !TemplateFlush(calls, k) ==>
              exists j: nat :: j < k && TemplateFlush(calls, j)
                               && calls[k].decidedAt < calls[j].recordedAt + 30_000_000_000
  {
    hide StateAfter;
    var before := calls[..k];
    LastTemplateSendIsLatest(before);
    forall j: nat | j < k
      ensures TemplateFlush(before, j) == TemplateFlush(calls, j) && before[j] == calls[j]
    {
      PrefixTemplateFlush(calls, k, j);
    }
    match StateAfter(before).lastTemplateSend {
      case None =>
      case Some(t) =>
        var l: nat :| l < k && TemplateFlush(before, l) && t == before[l].recordedAt
                      && forall i: nat :: l < i < k ==> !TemplateFlush(before, i);
        assert forall j: nat :: j < k && TemplateFlush(calls, j) ==>
          j == l || calls[j].recordedAt <= calls[l].recordedAt;
    }
  }

  // ---- Streams ----------------------------------------------------------------------------------------

  /** Messages as the exporter emits them: readable, never without a record, numbered from zero. */
  ghost predicate Stream(ms: seq<Message>) {
    && Numbered(ms, 0)
    && forall i :: 0 <= i < |ms| ==> ms[i].Typed() && ms[i].Length() <= U16_MAX && ms[i].RecordCount() > 0
  }

  lemma {:induction false} FlushIsReadable(cfg: Config, s: ExporterState, call: FlushCall)
    ensures var ms := FlushMessages(cfg, s, call);
            && (forall i :: 0 <= i < |ms| ==>
                  ms[i].Typed() && ms[i].Length() <= cfg.mtu && ms[i].RecordCount() > 0)
            && (ms != [] && s.lastTemplateSend == None ==> ms[0].template)
  {
    hide Print, WrappingAdd, Messages;
    if call.flows != [] {
      var due, stamp := TemplateDue(s, call.decidedAt), Stamp(call.nowUnix, cfg.odid);
      var ms := Messages(cfg.mtu, call.flows, s.sequence, due, stamp);
      forall i | 0 <= i < |ms|
        ensures ms[i].Typed() && ms[i].Length() <= cfg.mtu && ms[i].RecordCount() > 0
        ensures ms[i].template == (due && i == 0)
      {
        BatchMessageAt(cfg.mtu, call.flows, s.sequence, due, stamp, i);
      }
    }
  }

  lemma {:induction false} NothingEmitted(cfg: Config, calls: seq<FlushCall>)
    requires Emitted(cfg, calls) == []
    ensures StateAfter(calls) == CONNECTED
  {
    hide WrappingAdd, Messages;
    if calls == [] {
    } else {
      var before, last := calls[..|calls| - 1], calls[|calls| - 1];
      NothingEmitted(cfg, before);
      if last.flows != [] {
        FlushNumbers(cfg, StateAfter(before), last);
      }
    }
  }

  lemma {:induction false} EmittedWithinMtu(cfg: Config, calls: seq<FlushCall>, i: nat)
    requires i < |Emitted(cfg, calls)|
    ensures var m := Emitted(cfg, calls)[i];
            m.Typed() && m.Length() <= cfg.mtu && m.RecordCount() > 0
  {
    hide WrappingAdd, FlushMessages;
    var before, last := calls[..|calls| - 1], calls[|calls| - 1];
    FlushIsReadable(cfg, StateAfter(before), last);
    if i < |Emitted(cfg, before)| {
      EmittedWithinMtu(cfg, before, i);
    }
  }

  /** The first datagram of a run carries the templates. */
  lemma {:induction false} RunStartsWithTemplates(cfg: Config, calls: seq<FlushCall>)
    requires Emitted(cfg, calls) != []
    ensures Emitted(cfg, calls)[0].template
  {
    hide FlushMessages, StateAfter;
    var before, last := calls[..|calls| - 1], calls[|calls| - 1];
    if Emitted(cfg, before) == [] {
      NothingEmitted(cfg, before);
      FlushIsReadable(cfg, StateAfter(before), last);
    } else {
      RunStartsWithTemplates(cfg, before);
    }
  }

  lemma {:induction false} RunIsStream(cfg: Config, calls: seq<FlushCall>)
    ensures Stream(Emitted(cfg, calls))
    ensures Emitted(cfg, calls) != [] ==> Emitted(cfg, calls)[0].template
  {
    hide WrappingAdd, Numbered, Emitted, StateAfter;
    RunIsNumbered(cfg, calls);
    forall i | 0 <= i < |Emitted(cfg, calls)|
      ensures var m := Emitted(cfg, calls)[i]; m.Typed() && m.Length() <= U16_MAX && m.RecordCount() > 0
    {
      EmittedWithinMtu(cfg, calls, i);
    }
    if Emitted(cfg, calls) != [] {
      RunStartsWithTemplates(cfg, calls);
    }
  }

  /** Every datagram of a run is well formed: within the MTU, at least one record, and, for any reader that knows
      the templates by then, tiled exactly by the sets of its message, with the header as declared. */
  lemma {:induction false} EmittedDatagramIsWellFormed(cfg: Config, calls: seq<FlushCall>, i: nat, known: TemplateStore)
    requires i < |Emitted(cfg, calls)|
    requires Emitted(cfg, calls)[i].template || Knows(known)
    ensures var m := Emitted(cfg, calls)[i];
            && |Print(m)| == m.Length() <= cfg.mtu && m.RecordCount() > 0
            && ParseMessage(Print(m), known)
               == Ok(ParsedMessage(m.exportTime, m.sequence, m.odid, SetsOf(m), KnownAfter(m, known)))
  {
    hide Print, Emitted, ParseMessage, SetsOf, KnownAfter, Knows;
    var m := Emitted(cfg, calls)[i];
    EmittedWithinMtu(cfg, calls, i);
    PrintLength(m);
    PrintIsParsed(m, known);
  }

  // ---- The datagrams handed to the socket -------------------------------------------------------------

  /** A flush stamps its datagrams with its own wall clock reading and the configured observation domain. */
  lemma {:induction false} FlushStamps(cfg: Config, s: ExporterState, call: FlushCall, i: nat)
    requires i < |FlushMessages(cfg, s, call)|
    ensures FlushMessages(cfg, s, call)[i].odid == cfg.odid
    ensures FlushMessages(cfg, s, call)[i].exportTime == call.nowUnix
  {
    hide Messages, Print;
    BatchMessageAt(cfg.mtu, call.flows, s.sequence, TemplateDue(s, call.decidedAt), Stamp(call.nowUnix, cfg.odid), i);
  }

  /** The flush a message of a run comes from, and its stamp. */
  lemma {:induction false} EmittedBy(cfg: Config, calls: seq<FlushCall>, i: nat) returns (k: nat)
    requires i < |Emitted(cfg, calls)|
    ensures k < |calls| && |Emitted(cfg, calls[..k])| <= i < |Emitted(cfg, calls[..k + 1])|
    ensures Emitted(cfg, calls)[i].exportTime == calls[k].nowUnix && Emitted(cfg, calls)[i].odid == cfg.odid
  {
    hide FlushMessages, StateAfter;
    var n := |calls| - 1;
    var before, last := calls[..n], calls[n];
    if i < |Emitted(cfg, before)| {
      k := EmittedBy(cfg, before, i);
      assert before[..k] == calls[..k] && before[..k + 1] == calls[..k + 1];
    } else {
      k := n;
      assert calls[..n + 1] == calls;
      FlushStamps(cfg, StateAfter(before), last, i - |Emitted(cfg, before)|);
    }
  }

  /** Every datagram an exporter has handed to its socket: at most 1200 octets, IPFIX version 10, its own length, the
      wall clock reading of the flush it belongs to, the number of data records before it modulo 2^32, and the
      exporter's observation domain. */
  lemma {:induction false} AttemptedDatagram(exporter: Exporter, i: nat) returns (k: nat)
    requires exporter.Valid() && i < |exporter.attempted|
    ensures var ms := Emitted(Config(1200, exporter.odid), exporter.history);
            var dg := exporter.attempted[i];
            && |ms| == |exporter.attempted|
            && 16 <= |dg| <= 1200
            && dg[0..2] == [0x00, 0x0A] && FromBytes(dg[2..4]) == |dg|
            && k < |exporter.history| && FromBytes(dg[4..8]) == exporter.history[k].nowUnix
            && FromBytes(dg[8..12]) == RecordTotal(ms[..i]) % 0x1_0000_0000
            && FromBytes(dg[12..16]) == exporter.odid
            && |Emitted(Config(1200, exporter.odid), exporter.history[..k])| <= i
            && i < |Emitted(Config(1200, exporter.odid), exporter.history[..k + 1])|
  {
    hide Emitted, Print, FromBytes, RecordTotal, StateAfter;
    var cfg := Config(1200, exporter.odid);
    var ms := Emitted(cfg, exporter.history);
    k := EmittedBy(cfg, exporter.history, i);
    EmittedWithinMtu(cfg, exporter.history, i);
    RunIsNumbered(cfg, exporter.history);
    PrintLength(ms[i]);
    HeaderOctets(ms[i]);
  }

  // ---- A lossy, in-order channel ----------------------------------------------------------------------

  /** Some delivered message carried the templates. */
  predicate Heard(ms: seq<Message>, delivered: seq<bool>)
    requires |ms| == |delivered|
  {
    if ms == [] then false
    else
      var n := |ms| - 1;
      Heard(ms[..n], delivered[..n]) || (delivered[n] && ms[n].template)
  }

  /** The content of the messages delivered from the first template-carrying one on. */
  function Received(ms: seq<Message>, delivered: seq<bool>): seq<WireFlow>
    requires |ms| == |delivered|
  {
    if ms == [] then []
    else
      var n := |ms| - 1;
      Received(ms[..n], delivered[..n])
      + if delivered[n] && Heard(ms, delivered) then Content(ms[n]) else []
  }

  /** Messages delivered before any that carried the templates. */
  function TooEarly(ms: seq<Message>, delivered: seq<bool>): nat
    requires |ms| == |delivered|
  {
    if ms == [] then 0
    else
      var n := |ms| - 1;
      TooEarly(ms[..n], delivered[..n]) + if delivered[n] && !Heard(ms, delivered) then 1 else 0
  }

  /** The content of every other message: lost, or delivered too early to be read. */
  function Unread(ms: seq<Message>, delivered: seq<bool>): seq<WireFlow>
    requires |ms| == |delivered|
  {
    if ms == [] then []
    else
      var n := |ms| - 1;
      Unread(ms[..n], delivered[..n])
      + if delivered[n] && Heard(ms, delivered) then [] else Content(ms[n])
  }

  /** The records lost since the last message the collector could read. */
  function Pending(ms: seq<Message>, delivered: seq<bool>): (n: nat)
    requires |ms| == |delivered|
    ensures n <= RecordTotal(ms)
  {
    if !Heard(ms, delivered) || delivered[|ms| - 1] then 0
    else Pending(ms[..|ms| - 1], delivered[..|ms| - 1]) + ms[|ms| - 1].RecordCount()
  }

  /** The records lost between messages the collector could read. */
  function Missed(ms: seq<Message>, delivered: seq<bool>): nat
    requires |ms| == |delivered|
  {
    if ms == [] then 0
    else
      var n := |ms| - 1;
      Missed(ms[..n], delivered[..n]) + if delivered[n] then Pending(ms[..n], delivered[..n]) else 0
  }

  /** No single gap between one readable message and the next reaches 2^32 records. */
  ghost predicate NoGapWraps(ms: seq<Message>, delivered: seq<bool>)
    requires |ms| == |delivered|
  {
    forall n :: 0 <= n < |ms| && delivered[n] ==> Pending(ms[..n], delivered[..n]) < 0x1_0000_0000
  }

  lemma {:induction false} NoGapWrapsStep(ms: seq<Message>, delivered: seq<bool>)
    requires |ms| == |delivered| && ms != []
    ensures var n := |ms| - 1;
            NoGapWraps(ms, delivered)
            <==> NoGapWraps(ms[..n], delivered[..n])
                 && (delivered[n] ==> Pending(ms[..n], delivered[..n]) < 0x1_0000_0000)
  {
    hide Pending;
    var n := |ms| - 1;
    assert forall i :: 0 <= i < n ==> ms[..n][..i] == ms[..i] && delivered[..n][..i] == delivered[..i];
  }

  predicate Congruent(a: nat, b: nat) {
    a % 0x1_0000_0000 == b % 0x1_0000_0000
  }

  /** What the collector holds after listening to `ms` through the channel. The loss it reports is, modulo 2^32, the
      number of records lost between messages it could read; never more; and exactly that if and only if no single
      gap reached 2^32. */
  ghost predicate Summary(ms: seq<Message>, delivered: seq<bool>, c: Collector)
    requires |ms| == |delivered|
  {
    && c.rejected == TooEarly(ms, delivered)
    && c.flows == Received(ms, delivered)
    && c.lost <= Missed(ms, delivered)
    && Congruent(c.lost, Missed(ms, delivered))
    && (c.lost == Missed(ms, delivered) <==> NoGapWraps(ms, delivered))
    && if Heard(ms, delivered) then
         Knows(c.known) && c.expected == Some(WrappingAdd(0, RecordTotal(ms) - Pending(ms, delivered)))
       else
         c.known == map[] && c.expected == None
  }

  /** The gap seen between two points of the stream, `u` and `t` records into it. */
  lemma {:induction false} GapIsDistance(u: nat, t: nat)
    requires u <= t
    ensures var gap := Gap(Some(WrappingAdd(0, u)), WrappingAdd(0, t));
            gap <= t - u && Congruent(gap, t - u) && (gap == t - u <==> t - u < 0x1_0000_0000)
  {
    var k := u / 0x1_0000_0000 - t / 0x1_0000_0000;
    assert t % 0x1_0000_0000 - u % 0x1_0000_0000 == (t - u) + 0x1_0000_0000 * k;
    WholeTurns(t - u, k);
  }

  lemma {:induction false} CongruentSum(a: nat, b: nat, x: nat, y: nat)
    requires Congruent(a, b) && Congruent(x, y)
    ensures Congruent(a + x, b + y)
  {
    var p, q := a / 0x1_0000_0000 - b / 0x1_0000_0000, x / 0x1_0000_0000 - y / 0x1_0000_0000;
    assert a == b + 0x1_0000_0000 * p && x == y + 0x1_0000_0000 * q;
    assert a + x == (b + y) + 0x1_0000_0000 * (p + q);
    WholeTurns(b + y, p + q);
  }

  lemma {:induction false} StreamPrefix(ms: seq<Message>, n: nat)
    requires Stream(ms) && n <= |ms|
    ensures Stream(ms[..n])
  {
    hide WrappingAdd, RecordTotal;
    assert forall i :: 0 <= i < n ==> ms[..n][..i] == ms[..i];
  }

  /** One more message, delivered. */
  lemma {:induction false} DeliveredStep(ms: seq<Message>, delivered: seq<bool>)
    requires |ms| == |delivered| && ms != [] && delivered[|ms| - 1]
    ensures var n := |ms| - 1;
            var front, dfront := ms[..n], delivered[..n];
            && Heard(ms, delivered) == (Heard(front, dfront) || ms[n].template)
            && Received(ms, delivered)
               == Received(front, dfront) + (if Heard(ms, delivered) then Content(ms[n]) else [])
            && TooEarly(ms, delivered) == TooEarly(front, dfront) + (if Heard(ms, delivered) then 0 else 1)
            && Missed(ms, delivered) == Missed(front, dfront) + Pending(front, dfront)
            && Pending(ms, delivered) == 0
            && (!Heard(front, dfront) ==> Pending(front, dfront) == 0)
            && RecordTotal(ms) == RecordTotal(front) + ms[n].RecordCount()
  {
    hide Content;
  }

  lemma {:induction false} ListenTooEarly(ms: seq<Message>, delivered: seq<bool>, c: Collector)
    requires Stream(ms) && ms != [] && |ms| == |delivered| && delivered[|ms| - 1]
    requires Summary(ms[..|ms| - 1], delivered[..|ms| - 1], c)
    requires !Heard(ms, delivered)
    ensures Summary(ms, delivered, Receive(c, Print(ms[|ms| - 1])))
  {
    hide Print, WrappingAdd, Receive, Content, Knows, Congruent, NoGapWraps;
    hide Heard, Received, TooEarly, Missed, Pending, RecordTotal;
    var n := |ms| - 1;
    DeliveredStep(ms, delivered);
    ReceiveUnknown(c, ms[n]);
    NoGapWrapsStep(ms, delivered);
    ConcatEmpty(Received(ms[..n], delivered[..n]));
  }

  lemma {:induction false} ListenFirst(ms: seq<Message>, delivered: seq<bool>, c: Collector)
    requires Stream(ms) && ms != [] && |ms| == |delivered| && delivered[|ms| - 1]
    requires Summary(ms[..|ms| - 1], delivered[..|ms| - 1], c)
    requires !Heard(ms[..|ms| - 1], delivered[..|ms| - 1]) && ms[|ms| - 1].template
    ensures Summary(ms, delivered, Receive(c, Print(ms[|ms| - 1])))
  {
    hide Print, WrappingAdd, Receive, Content, Knows, Congruent, NoGapWraps;
    hide Heard, Received, TooEarly, Missed, Pending, RecordTotal;
    var n := |ms| - 1;
    DeliveredStep(ms, delivered);
    ReceiveKnown(c, ms[n]);
    NoGapWrapsStep(ms, delivered);
    WrappingAddTwice(0, RecordTotal(ms[..n]), ms[n].RecordCount());
  }

  lemma {:induction false} ListenAgain(ms: seq<Message>, delivered: seq<bool>, c: Collector)
    requires Stream(ms) && ms != [] && |ms| == |delivered| && delivered[|ms| - 1]
    requires Summary(ms[..|ms| - 1], delivered[..|ms| - 1], c)
    requires Heard(ms[..|ms| - 1], delivered[..|ms| - 1])
    ensures Summary(ms, delivered, Receive(c, Print(ms[|ms| - 1])))
  {
    hide Print, WrappingAdd, Receive, Content, Knows, Congruent, Gap, NoGapWraps;
    hide Heard, Received, TooEarly, Missed, Pending, RecordTotal;
    var n := |ms| - 1;
    DeliveredStep(ms, delivered);
    var t, pending := RecordTotal(ms[..n]), Pending(ms[..n], delivered[..n]);
    ReceiveKnown(c, ms[n]);
    NoGapWrapsStep(ms, delivered);
    WrappingAddTwice(0, t, ms[n].RecordCount());
    GapIsDistance(t - pending, t);
    CongruentSum(c.lost, Missed(ms[..n], delivered[..n]), Gap(c.expected, ms[n].sequence), pending);
  }

  /** A lost message changes nothing but what is pending. */
  lemma {:induction false} ListenNothing(ms: seq<Message>, delivered: seq<bool>, c: Collector)
    requires Stream(ms) && ms != [] && |ms| == |delivered| && !delivered[|ms| - 1]
    requires Summary(ms[..|ms| - 1], delivered[..|ms| - 1], c)
    ensures Summary(ms, delivered, c)
  {
    hide WrappingAdd, Content, Knows, Congruent, NoGapWraps;
    NoGapWrapsStep(ms, delivered);
    ConcatEmpty(Received(ms[..|ms| - 1], delivered[..|ms| - 1]));
  }

  lemma {:induction false} NothingHeard()
    ensures Summary([], [], FRESH)
  {
  }

  lemma {:induction false} ListenStep(ms: seq<Message>, delivered: seq<bool>, c: Collector)
    requires Stream(ms) && ms != [] && |ms| == |delivered| && delivered[|ms| - 1]
    requires Summary(ms[..|ms| - 1], delivered[..|ms| - 1], c)
    ensures Summary(ms, delivered, Receive(c, Print(ms[|ms| - 1])))
  {
    hide Print, WrappingAdd, Receive, Content, Summary;
    var n := |ms| - 1;
    var front, dfront := ms[..n], delivered[..n];
    if Heard(front, dfront) {
      ListenAgain(ms, delivered, c);
    } else if ms[n].template {
      ListenFirst(ms, delivered, c);
    } else {
      ListenTooEarly(ms, delivered, c);
    }
  }

  /** A collector on a lossy, in-order channel reads every delivered datagram from the first delivered Template
      Set on, and nothing before it; and its loss count is right, modulo 2^32, and exact if and only if no single
      gap reached 2^32. */
  lemma {:induction false} ListenOnLossyChannel(ms: seq<Message>, delivered: seq<bool>)
    requires Stream(ms) && |ms| == |delivered|
    ensures Summary(ms, delivered, Listen(PrintAll(ms), delivered))
  {
    hide Print, WrappingAdd, Numbered, Receive, Content, Knows, Congruent, NoGapWraps, Pending;
    if ms == [] {
      NothingHeard();
    } else {
      var n := |ms| - 1;
      var front, dfront, m := ms[..n], delivered[..n], ms[n];
      StreamPrefix(ms, n);
      ListenOnLossyChannel(front, dfront);
      assert PrintAll(ms)[..n] == PrintAll(front);
      var c := Listen(PrintAll(front), dfront);
      if delivered[n] {
        ListenStep(ms, delivered, c);
      } else {
        ListenNothing(ms, delivered, c);
      }
    }
  }

  /** The records of the messages not delivered. */
  function UndeliveredTotal(ms: seq<Message>, delivered: seq<bool>): nat
    requires |ms| == |delivered|
  {
    if ms == [] then 0
    else
      var n := |ms| - 1;
      UndeliveredTotal(ms[..n], delivered[..n]) + if delivered[n] then 0 else ms[n].RecordCount()
  }

  /** Message `f` is the first delivered with the templates, and `l` the last delivered of all. */
  ghost predicate ReadableSpan(ms: seq<Message>, delivered: seq<bool>, f: nat, l: nat)
    requires |ms| == |delivered|
  {
    && f <= l < |ms| && delivered[f] && ms[f].template && delivered[l]
    && (forall j :: 0 <= j < f && delivered[j] ==> !ms[j].template)
    && (forall j :: l < j < |ms| ==> !delivered[j])
  }

  lemma {:induction false} HeardIffDelivered(ms: seq<Message>, delivered: seq<bool>)
    requires |ms| == |delivered|
    ensures Heard(ms, delivered) <==> exists j :: 0 <= j < |ms| && delivered[j] && ms[j].template
  {
    if ms == [] {
    } else {
      var n := |ms| - 1;
      HeardIffDelivered(ms[..n], delivered[..n]);
      if Heard(ms[..n], delivered[..n]) {
        var j :| 0 <= j < n && delivered[..n][j] && ms[..n][j].template;
        assert delivered[j] && ms[j].template;
      }
    }
  }

  lemma {:induction false} ReadableSpanExists(ms: seq<Message>, delivered: seq<bool>) returns (f: nat, l: nat)
    requires |ms| == |delivered| && Heard(ms, delivered)
    ensures ReadableSpan(ms, delivered, f, l)
  {
    var n := |ms| - 1;
    if Heard(ms[..n], delivered[..n]) {
      f, l := ReadableSpanExists(ms[..n], delivered[..n]);
      if delivered[n] {
        l := n;
      }
    } else {
      HeardIffDelivered(ms[..n], delivered[..n]);
      f, l := n, n;
      forall j | 0 <= j < n && delivered[j]
        ensures !ms[j].template
      {
        assert delivered[..n][j] == delivered[j] && ms[..n][j] == ms[j];
      }
    }
  }

  lemma {:induction false} NothingMissed(ms: seq<Message>, delivered: seq<bool>)
    requires |ms| == |delivered| && !Heard(ms, delivered)
    ensures Missed(ms, delivered) == 0
  {
    if ms == [] {
    } else {
      NothingMissed(ms[..|ms| - 1], delivered[..|ms| - 1]);
    }
  }

  lemma {:induction false} MissedStep(ms: seq<Message>, delivered: seq<bool>)
    requires |ms| == |delivered| && ms != []
    ensures var front, dfront := ms[..|ms| - 1], delivered[..|ms| - 1];
            && Missed(ms, delivered)
               == Missed(front, dfront) + (if delivered[|ms| - 1] then Pending(front, dfront) else 0)
            && (Heard(ms, delivered) && !delivered[|ms| - 1] ==>
                  Pending(ms, delivered) == Pending(front, dfront) + ms[|ms| - 1].RecordCount())
            && (delivered[|ms| - 1] ==> Pending(ms, delivered) == 0)
            && (!Heard(front, dfront) ==> Pending(front, dfront) == 0)
  {
    hide Heard;
  }

  lemma {:induction false} UndeliveredFrom(ms: seq<Message>, delivered: seq<bool>, f: nat)
    requires |ms| == |delivered| && f < |ms|
    ensures var n := |ms| - 1;
            UndeliveredTotal(ms[f..], delivered[f..])
            == UndeliveredTotal(ms[..n][f..], delivered[..n][f..]) + if delivered[n] then 0 else ms[n].RecordCount()
  {
    var n := |ms| - 1;
    assert ms[f..][..n - f] == ms[..n][f..] && delivered[f..][..n - f] == delivered[..n][f..];
  }

  lemma {:induction false} NothingUndelivered()
    ensures UndeliveredTotal([], []) == 0
  {
  }

  /** From the first readable message on, what is missed or pending is what was not delivered. */
  lemma {:induction false} LostSince(ms: seq<Message>, delivered: seq<bool>, f: nat)
    requires |ms| == |delivered| && f < |ms| && delivered[f] && ms[f].template
    requires forall j :: 0 <= j < f && delivered[j] ==> !ms[j].template
    ensures Missed(ms, delivered) + Pending(ms, delivered) == UndeliveredTotal(ms[f..], delivered[f..])
  {
    hide Missed, Pending, Heard, UndeliveredTotal;
    var n := |ms| - 1;
    UndeliveredFrom(ms, delivered, f);
    MissedStep(ms, delivered);
    HeardIffDelivered(ms, delivered);
    if f == n {
      HeardIffDelivered(ms[..n], delivered[..n]);
      NothingMissed(ms[..n], delivered[..n]);
      NothingUndelivered();
      assert ms[..n][f..] == [] && delivered[..n][f..] == [];
    } else {
      LostSince(ms[..n], delivered[..n], f);
    }
  }

  /** The records missed are those of the messages not delivered between the first and the last readable one. */
  lemma {:induction false} MissedIsUndelivered(ms: seq<Message>, delivered: seq<bool>, f: nat, l: nat)
    requires |ms| == |delivered| && ReadableSpan(ms, delivered, f, l)
    ensures Missed(ms, delivered) == UndeliveredTotal(ms[f..l], delivered[f..l])
  {
    hide Missed, Pending, Heard, UndeliveredTotal;
    var n := |ms| - 1;
    MissedStep(ms, delivered);
    NothingUndelivered();
    if l < n {
      MissedIsUndelivered(ms[..n], delivered[..n], f, l);
      assert ms[..n][f..l] == ms[f..l] && delivered[..n][f..l] == delivered[f..l];
    } else if f < l {
      LostSince(ms[..n], delivered[..n], f);
      assert ms[..n][f..] == ms[f..l] && delivered[..n][f..] == delivered[f..l];
    } else {
      HeardIffDelivered(ms[..n], delivered[..n]);
      NothingMissed(ms[..n], delivered[..n]);
    }
  }

  /** The loss a collector reports over a run, whatever was lost: modulo 2^32 the records of the datagrams not
      delivered between the first and the last one it could read, and exactly their number if and only if no gap
      between one readable datagram and the next reached 2^32 records. */
  lemma {:induction false} LossAccounting(cfg: Config, calls: seq<FlushCall>, delivered: seq<bool>, f: nat, l: nat)
    requires |delivered| == |Emitted(cfg, calls)|
    requires ReadableSpan(Emitted(cfg, calls), delivered, f, l)
    ensures var ms := Emitted(cfg, calls);
            var c := Listen(PrintAll(ms), delivered);
            var lost := UndeliveredTotal(ms[f..l], delivered[f..l]);
            && Summary(ms, delivered, c)
            && c.lost % 0x1_0000_0000 == lost % 0x1_0000_0000
            && (c.lost == lost <==> NoGapWraps(ms, delivered))
  {
    hide Listen, Emitted, Knows, Received, NoGapWraps, UndeliveredTotal, Missed, Pending;
    var ms := Emitted(cfg, calls);
    RunIsStream(cfg, calls);
    ListenOnLossyChannel(ms, delivered);
    MissedIsUndelivered(ms, delivered, f, l);
  }

  /** A single gap: between two messages of a run it is, modulo 2^32, the records of the messages between them, and
      exactly their number if and only if that is below 2^32. */
  lemma {:induction false} GapCountsRecordsBetween(cfg: Config, calls: seq<FlushCall>, i: nat, j: nat)
    requires i < j < |Emitted(cfg, calls)|
    ensures var ms := Emitted(cfg, calls);
            var gap := Gap(Some(WrappingAdd(ms[i].sequence, ms[i].RecordCount())), ms[j].sequence);
            var between := RecordTotal(ms[i + 1..j]);
            Congruent(gap, between) && (gap == between <==> between < 0x1_0000_0000)
  {
    hide WrappingAdd, Emitted, Gap, Congruent, RecordTotal;
    var ms := Emitted(cfg, calls);
    RunIsStream(cfg, calls);
    var u, t := RecordTotal(ms[..i]) + ms[i].RecordCount(), RecordTotal(ms[..j]);
    NumberedOne(ms[i]);
    RecordTotalConcat(ms[..i], [ms[i]]);
    RecordTotalConcat(ms[..i + 1], ms[i + 1..j]);
    assert ms[..i] + [ms[i]] == ms[..i + 1] && ms[..i + 1] + ms[i + 1..j] == ms[..j];
    WrappingAddTwice(0, RecordTotal(ms[..i]), ms[i].RecordCount());
    GapIsDistance(u, t);
  }

  // ---- A perfect channel: the whole-run round trip ----------------------------------------------------

  function Everything(n: nat): seq<bool> {
    seq(n, i requires 0 <= i < n => true)
  }

  /** Each flush's flows, v4 in order and then v6 in order, projected. */
  function Exported(calls: seq<FlushCall>): seq<WireFlow> {
    if calls == [] then []
    else
      var flows := calls[|calls| - 1].flows;
      Exported(calls[..|calls| - 1]) + (ProjectAll(V4Of(flows)) + ProjectAll(V6Of(flows)))
  }

  function Contents(ms: seq<Message>): seq<WireFlow> {
    if ms == [] then [] else Contents(ms[..|ms| - 1]) + Content(ms[|ms| - 1])
  }

  lemma {:induction false} ContentsConcat(a: seq<Message>, b: seq<Message>)
    ensures Contents(a + b) == Contents(a) + Contents(b)
  {
    hide Content;
    if b == [] {
      ConcatEmpty(a);
      ConcatEmpty(Contents(a));
    } else {
      ConcatFront(a, b);
      ContentsConcat(a, b[..|b| - 1]);
      ConcatAssoc(Contents(a), Contents(b[..|b| - 1]), Content(b[|b| - 1]));
    }
  }

  lemma {:induction false} ProjectAllConcat(a: seq<Flow>, b: seq<Flow>)
    ensures ProjectAll(a + b) == ProjectAll(a) + ProjectAll(b)
  {
    hide Project;
  }

  lemma {:induction false} NoMoreV4(ms: seq<Message>)
    requires forall j :: 0 <= j < |ms| ==> ms[j].v4 == []
    ensures AllRecordsV4(ms) == []
  {
    if ms == [] {
    } else {
      NoMoreV4(ms[1..]);
    }
  }

  lemma {:induction false} NoRecords()
    ensures ProjectAll([]) == [] && AllRecordsV6([]) == []
  {
  }

  lemma {:induction false} AllRecordsStep(ms: seq<Message>)
    requires ms != []
    ensures AllRecordsV4(ms) == ms[0].v4 + AllRecordsV4(ms[1..])
    ensures AllRecordsV6(ms) == ms[0].v6 + AllRecordsV6(ms[1..])
  {
  }

  lemma {:induction false} ContentsOfOne(m: Message)
    ensures Contents([m]) == ProjectAll(m.v4) + ProjectAll(m.v6)
  {
    assert [m][..0] == [];
    ConcatEmpty(Content(m));
  }

  /** When no message carries v6 records before the v4 records are done, reading the messages one by one reads
      all v4 flows and then all v6 flows. */
  lemma {:induction false} ContentsInOrder(ms: seq<Message>)
    requires forall i, j :: 0 <= i < j < |ms| && ms[i].v6 != [] ==> ms[j].v4 == []
    ensures Contents(ms) == ProjectAll(AllRecordsV4(ms)) + ProjectAll(AllRecordsV6(ms))
  {
    hide ProjectAll, AllRecordsV6;
    if ms == [] {
      NoRecords();
    } else {
      var m, rest := ms[0], ms[1..];
      ContentsInOrder(rest);
      ContentsConcat([m], rest);
      ContentsOfOne(m);
      assert ms == [m] + rest;
      AllRecordsStep(ms);
      ProjectAllConcat(m.v4, AllRecordsV4(rest));
      ProjectAllConcat(m.v6, AllRecordsV6(rest));
      var a, b := ProjectAll(m.v4), ProjectAll(m.v6);
      var c, d := ProjectAll(AllRecordsV4(rest)), ProjectAll(AllRecordsV6(rest));
      if m.v6 != [] {
        NoMoreV4(rest);
        NoRecords();
        ConcatEmpty(d);
        ConcatEmpty(a);
        ConcatAssoc(a, b, d);
      } else {
        NoRecords();
        ConcatEmpty(a);
        ConcatEmpty(d);
        ConcatAssoc(a, c, d);
      }
    }
  }

  lemma {:induction false} ContentsOfFlush(cfg: Config, s: ExporterState, call: FlushCall)
    ensures Contents(FlushMessages(cfg, s, call)) == ProjectAll(V4Of(call.flows)) + ProjectAll(V6Of(call.flows))
  {
    hide WrappingAdd, Messages, ProjectAll;
    if call.flows == [] {
      NoRecords();
    } else {
      var due, stamp := TemplateDue(s, call.decidedAt), Stamp(call.nowUnix, cfg.odid);
      BatchIsPartitioned(cfg.mtu, call.flows, s.sequence, due, stamp);
      ContentsInOrder(Messages(cfg.mtu, call.flows, s.sequence, due, stamp));
    }
  }

  lemma {:induction false} ContentsAreExported(cfg: Config, calls: seq<FlushCall>)
    ensures Contents(Emitted(cfg, calls)) == Exported(calls)
  {
    hide WrappingAdd, FlushMessages, V4Of, V6Of, ProjectAll;
    if calls == [] {
    } else {
      var before, last := calls[..|calls| - 1], calls[|calls| - 1];
      ContentsAreExported(cfg, before);
      ContentsConcat(Emitted(cfg, before), FlushMessages(cfg, StateAfter(before), last));
      ContentsOfFlush(cfg, StateAfter(before), last);
    }
  }

  lemma {:induction false} HearEverything(ms: seq<Message>)
    requires ms != [] ==> ms[0].template
    ensures Received(ms, Everything(|ms|)) == Contents(ms)
    ensures TooEarly(ms, Everything(|ms|)) == 0
    ensures Missed(ms, Everything(|ms|)) == 0 && Pending(ms, Everything(|ms|)) == 0
    ensures ms != [] ==> Heard(ms, Everything(|ms|))
  {
    hide Content;
    if ms == [] {
    } else {
      var n := |ms| - 1;
      assert Everything(|ms|)[..n] == Everything(n);
      HearEverything(ms[..n]);
    }
  }

  /** Whole-run round trip: a collector that starts with no templates and receives every datagram of any run of
      flushes rejects none, sees no gap, and ends with exactly each flush's flows, v4 in order and then v6 in
      order, up to the wire projection. */
  lemma {:induction false} WholeRunRoundTrip(cfg: Config, calls: seq<FlushCall>)
    ensures var ms := Emitted(cfg, calls);
            var c := Listen(PrintAll(ms), Everything(|ms|));
            c.rejected == 0 && c.lost == 0 && c.flows == Exported(calls)
  {
    hide Listen, Emitted, Knows, Received, Missed, Pending, NoGapWraps, Exported, Contents, Print;
    var ms := Emitted(cfg, calls);
    RunIsStream(cfg, calls);
    ListenOnLossyChannel(ms, Everything(|ms|));
    HearEverything(ms);
    ContentsAreExported(cfg, calls);
  }
  // ---- A collector that joins late --------------------------------------------------------------------

  lemma {:induction false} EmittedSplit(cfg: Config, calls: seq<FlushCall>, k: nat)
    requires k <= |calls|
    ensures |Emitted(cfg, calls[..k])| <= |Emitted(cfg, calls)|
    ensures Emitted(cfg, calls)[..|Emitted(cfg, calls[..k])|] == Emitted(cfg, calls[..k])
    ensures k < |calls| ==>
              Emitted(cfg, calls[..k + 1])
              == Emitted(cfg, calls[..k]) + FlushMessages(cfg, StateAfter(calls[..k]), calls[k])
  {
    hide FlushMessages, StateAfter;
    if k == |calls| {
      assert calls[..k] == calls;
    } else {
      var n := |calls| - 1;
      EmittedSplit(cfg, calls[..n], k);
      assert calls[..n][..k] == calls[..k] && calls[..k + 1][..k] == calls[..k];
    }
  }

  lemma {:induction false} ExportedConcat(a: seq<FlushCall>, b: seq<FlushCall>)
    ensures Exported(a + b) == Exported(a) + Exported(b)
  {
    hide ProjectAll, V4Of, V6Of;
    if b == [] {
      ConcatEmpty(a);
      ConcatEmpty(Exported(a));
    } else {
      var flows := b[|b| - 1].flows;
      ConcatFront(a, b);
      ExportedConcat(a, b[..|b| - 1]);
      ConcatAssoc(Exported(a), Exported(b[..|b| - 1]), ProjectAll(V4Of(flows)) + ProjectAll(V6Of(flows)));
    }
  }

  lemma {:induction false} SuffixOfSum<T>(a: seq<T>, b: seq<T>, c: seq<T>)
    requires a + b == a + c
    ensures b == c
  {
    assert b == (a + b)[|a|..] && c == (a + c)[|a|..];
  }

  /** The messages of the flushes from `k` on hold those flushes' flows. */
  lemma {:induction false} ContentsFrom(cfg: Config, calls: seq<FlushCall>, k: nat)
    requires k <= |calls|
    ensures |Emitted(cfg, calls[..k])| <= |Emitted(cfg, calls)|
    ensures Contents(Emitted(cfg, calls)[|Emitted(cfg, calls[..k])|..]) == Exported(calls[k..])
  {
    hide Emitted, Contents, Exported;
    var ms, front := Emitted(cfg, calls), Emitted(cfg, calls[..k]);
    EmittedSplit(cfg, calls, k);
    var rest := ms[|front|..];
    assert ms == front + rest && calls == calls[..k] + calls[k..];
    ContentsConcat(front, rest);
    ExportedConcat(calls[..k], calls[k..]);
    ContentsAreExported(cfg, calls);
    ContentsAreExported(cfg, calls[..k]);
    SuffixOfSum(Exported(calls[..k]), Contents(rest), Exported(calls[k..]));
  }

  lemma {:induction false} ContentsSnoc(ms: seq<Message>, n: nat)
    requires n < |ms|
    ensures Contents(ms[n..]) == Contents(ms[..|ms| - 1][n..]) + Content(ms[|ms| - 1])
  {
    hide Content;
    var l := |ms| - 1;
    assert ms[n..][..l - n] == ms[..l][n..] && ms[n..][l - n] == ms[l];
  }

  lemma {:induction false} NoContents()
    ensures Contents([]) == []
  {
  }

  /** When everything from message `n` on is delivered and the templates are known by then, all of it is read. */
  lemma {:induction false} RestIsRead(ms: seq<Message>, delivered: seq<bool>, n: nat)
    requires |ms| == |delivered| && n <= |ms|
    requires forall i :: n <= i < |ms| ==> delivered[i]
    requires Heard(ms[..n], delivered[..n]) || (n < |ms| && ms[n].template)
    ensures Heard(ms, delivered)
    ensures Received(ms, delivered) == Received(ms[..n], delivered[..n]) + Contents(ms[n..])
    ensures TooEarly(ms, delivered) == TooEarly(ms[..n], delivered[..n])
  {
    hide Content, Heard, Received, TooEarly, Contents;
    NoContents();
    ConcatEmpty(Received(ms[..n], delivered[..n]));
    if n == |ms| {
      assert ms[..n] == ms && delivered[..n] == delivered && ms[n..] == [];
    } else {
      var l := |ms| - 1;
      assert ms[..l][..n] == ms[..n] && delivered[..l][..n] == delivered[..n];
      DeliveredStep(ms, delivered);
      ContentsSnoc(ms, n);
      if n < l {
        RestIsRead(ms[..l], delivered[..l], n);
        ConcatAssoc(Received(ms[..n], delivered[..n]), Contents(ms[..l][n..]), Content(ms[l]));
      } else {
        assert ms[..l][n..] == [];
        ConcatEmpty(Content(ms[l]));
      }
    }
  }

  /** Between flush `j` and a non-empty flush decided at least 30 s after the last recorded instant before `j`, the
      templates are sent. */
  lemma {:induction false} RefreshInBetween(calls: seq<FlushCall>, j: nat, k: nat) returns (i: nat)
    requires MonotoneClock(calls) && j <= k < |calls| && calls[k].flows != []
    requires j > 0 ==> calls[j - 1].recordedAt + 30_000_000_000 <= calls[k].decidedAt
    ensures j <= i <= k && TemplateFlush(calls, i)
  {
    hide TemplateFlush;
    TemplateRefresh(calls, k);
    if TemplateFlush(calls, k) {
      i := k;
    } else {
      i :| i < k && TemplateFlush(calls, i) && calls[k].decidedAt < calls[i].recordedAt + 30_000_000_000;
      assert i >= j;
    }
  }

  lemma {:induction false} TemplateFlushIsHeard(cfg: Config, calls: seq<FlushCall>, i: nat)
    requires i < |calls| && TemplateFlush(calls, i)
    ensures var p, ms := |Emitted(cfg, calls[..i])|, Emitted(cfg, calls);
            p < |Emitted(cfg, calls[..i + 1])| <= |ms| && ms[p].template
  {
    hide Emitted, FlushMessages, StateAfter;
    var first := FlushMessages(cfg, StateAfter(calls[..i]), calls[i]);
    TemplateSetsAreInTemplateFlushes(cfg, calls, i);
    EmittedSplit(cfg, calls, i);
    EmittedSplit(cfg, calls, i + 1);
    assert calls[i].flows != [];
    assert Emitted(cfg, calls[..i + 1])[|Emitted(cfg, calls[..i])|] == first[0];
  }

  lemma {:induction false} EmittedMonotone(cfg: Config, calls: seq<FlushCall>, i: nat, k: nat)
    requires i <= k <= |calls|
    ensures |Emitted(cfg, calls[..i])| <= |Emitted(cfg, calls[..k])|
  {
    hide Emitted;
    EmittedSplit(cfg, calls[..k], i);
    assert calls[..k][..i] == calls[..i];
  }

  lemma {:induction false} HeardAt(ms: seq<Message>, delivered: seq<bool>, n: nat, p: nat)
    requires |ms| == |delivered| && p < n <= |ms| && delivered[p] && ms[p].template
    ensures Heard(ms[..n], delivered[..n])
  {
    HeardIffDelivered(ms[..n], delivered[..n]);
    assert delivered[..n][p] && ms[..n][p].template;
  }

  /** By flush `k` the templates have been heard, or its first message carries them. */
  lemma {:induction false} HeardByRefresh(cfg: Config, calls: seq<FlushCall>, j: nat, k: nat, delivered: seq<bool>)
    requires MonotoneClock(calls) && j <= k < |calls| && calls[k].flows != []
    requires j > 0 ==> calls[j - 1].recordedAt + 30_000_000_000 <= calls[k].decidedAt
    requires |delivered| == |Emitted(cfg, calls)|
    requires forall i :: |Emitted(cfg, calls[..j])| <= i < |delivered| ==> delivered[i]
    ensures var ms, n := Emitted(cfg, calls), |Emitted(cfg, calls[..k])|;
            n <= |ms| && (Heard(ms[..n], delivered[..n]) || (n < |ms| && ms[n].template))
  {
    hide Emitted, TemplateFlush, Heard, MonotoneClock;
    var ms, n := Emitted(cfg, calls), |Emitted(cfg, calls[..k])|;
    var i := RefreshInBetween(calls, j, k);
    var p := |Emitted(cfg, calls[..i])|;
    EmittedSplit(cfg, calls, k);
    TemplateFlushIsHeard(cfg, calls, i);
    EmittedMonotone(cfg, calls, j, i);
    if i < k {
      EmittedMonotone(cfg, calls, i + 1, k);
      HeardAt(ms, delivered, n, p);
    }
  }

  /** What the refresh is for: under a monotone clock, and whatever was lost before, a collector to which every
      datagram is delivered from flush `j` on reads in full every flush from the first non-empty one on that is
      decided at least 30 s after the last recorded instant before `j`. */
  lemma {:induction false} LateCollectorCatchesUp(cfg: Config, calls: seq<FlushCall>, j: nat, k: nat,
                                                  delivered: seq<bool>)
    requires MonotoneClock(calls) && j <= k < |calls| && calls[k].flows != []
    requires j > 0 ==> calls[j - 1].recordedAt + 30_000_000_000 <= calls[k].decidedAt
    requires |delivered| == |Emitted(cfg, calls)|
    requires forall i :: |Emitted(cfg, calls[..j])| <= i < |delivered| ==> delivered[i]
    ensures var ms, before := Emitted(cfg, calls), Emitted(cfg, calls[..k]);
            |before| <= |ms| &&
            var c, c' := Listen(PrintAll(before), delivered[..|before|]), Listen(PrintAll(ms), delivered);
            c'.flows == c.flows + Exported(calls[k..]) && c'.rejected == c.rejected
  {
    hide Emitted, Listen, Received, TooEarly, Exported, Contents, Heard, Knows, Missed, Pending, NoGapWraps, PrintAll;
    var ms, before := Emitted(cfg, calls), Emitted(cfg, calls[..k]);
    EmittedSplit(cfg, calls, k);
    EmittedMonotone(cfg, calls, j, k);
    HeardByRefresh(cfg, calls, j, k, delivered);
    RunIsStream(cfg, calls);
    RunIsStream(cfg, calls[..k]);
    ListenOnLossyChannel(ms, delivered);
    ListenOnLossyChannel(before, delivered[..|before|]);
    RestIsRead(ms, delivered, |before|);
    ContentsFrom(cfg, calls, k);
  }

  // ---- A gap that wraps -------------------------------------------------------------------------------

  lemma {:induction false} EmptyTotal()
    ensures RecordTotal([]) == 0
  {
  }

  lemma {:induction false} EachHasARecord(ms: seq<Message>)
    requires forall i :: 0 <= i < |ms| ==> ms[i].RecordCount() > 0
    ensures |ms| <= RecordTotal(ms)
  {
    if ms == [] {
    } else {
      EachHasARecord(ms[..|ms| - 1]);
    }
  }

  /** A flush of a single flow is a single message with a single record. */
  lemma {:induction false} FlushOfOne(cfg: Config, s: ExporterState, call: FlushCall)
    requires |call.flows| == 1
    ensures var ms := FlushMessages(cfg, s, call);
            |ms| == 1 && ms[0].RecordCount() == 1 && RecordTotal(ms) == 1
  {
    hide FlushMessages, Numbered, WrappingAdd;
    var ms := FlushMessages(cfg, s, call);
    FlushNumbers(cfg, s, call);
    FlushIsReadable(cfg, s, call);
    EachHasARecord(ms);
    EmptyTotal();
    assert ms[..0] == [];
  }

  lemma {:induction false} AllButTheFirst(ms: seq<Message>, delivered: seq<bool>)
    requires |ms| == |delivered| > 0
    requires forall i :: 0 <= i < |ms| ==> delivered[i] == (i == 0)
    ensures UndeliveredTotal(ms, delivered) == RecordTotal(ms) - ms[0].RecordCount()
  {
    var n := |ms| - 1;
    if n == 0 {
      assert UndeliveredTotal(ms[..0], delivered[..0]) == 0 && RecordTotal(ms[..0]) == 0;
    } else {
      AllButTheFirst(ms[..n], delivered[..n]);
    }
  }

  /** Three flushes, of one, `n` and one flow. */
  function OneManyOne(f: Flow, n: nat): seq<FlushCall> {
    [FlushCall([f], 0, 0, 0), FlushCall(seq(n, i => f), 0, 0, 0), FlushCall([f], 0, 0, 0)]
  }

  lemma {:induction false} FlowsOfThree(calls: seq<FlushCall>)
    requires |calls| == 3
    ensures FlowTotal(calls) == |calls[0].flows| + |calls[1].flows| + |calls[2].flows|
  {
    assert calls[..2][..1] == calls[..1] && calls[..1][..0] == [];
    assert FlowTotal(calls[..1]) == |calls[0].flows|;
    assert FlowTotal(calls[..2]) == FlowTotal(calls[..1]) + |calls[1].flows|;
  }

  lemma {:induction false} OneManyOneEmits(cfg: Config, f: Flow, n: nat)
    ensures var ms := Emitted(cfg, OneManyOne(f, n));
            && |ms| >= 2 && ms[0].template
            && ms[0].RecordCount() == ms[|ms| - 1].RecordCount() == 1
            && RecordTotal(ms) == n + 2
  {
    hide FlushMessages, StateAfter, Numbered, WrappingAdd, Emitted, RecordTotal, FlowTotal;
    var calls := OneManyOne(f, n);
    RunIsNumbered(cfg, calls);
    FlowsOfThree(calls);
    assert Emitted(cfg, calls[..0]) == [] by { StartOfRuns(cfg); }
    EmittedSplit(cfg, calls, 0);
    EmittedSplit(cfg, calls, 1);
    EmittedSplit(cfg, calls, 2);
    assert calls[..3] == calls;
    FlushOfOne(cfg, StateAfter(calls[..0]), calls[0]);
    FlushOfOne(cfg, StateAfter(calls[..2]), calls[2]);
    RunStartsWithTemplates(cfg, calls);
    EmittedMonotone(cfg, calls, 1, 2);
  }

  lemma {:induction false} LastTotal(ms: seq<Message>)
    requires ms != []
    ensures RecordTotal(ms) == RecordTotal(ms[0..|ms| - 1]) + ms[|ms| - 1].RecordCount()
  {
    assert ms[0..|ms| - 1] == ms[..|ms| - 1];
  }

  /** Where the loss count goes wrong: for any flow there is a run of which a collector reads the first and the last
      datagram, misses 2^32 records in between, and reports none. */
  lemma {:induction false} WrappedGapGoesUnseen(cfg: Config, f: Flow)
    returns (calls: seq<FlushCall>, delivered: seq<bool>)
    ensures var ms := Emitted(cfg, calls);
            && |delivered| == |ms| > 0 && ReadableSpan(ms, delivered, 0, |ms| - 1)
            && UndeliveredTotal(ms[0..|ms| - 1], delivered[0..|ms| - 1]) == 0x1_0000_0000
            && Listen(PrintAll(ms), delivered).lost == 0
  {
    hide Emitted, Listen, PrintAll, Knows, Received, TooEarly, Missed, Pending, RecordTotal, UndeliveredTotal, Heard;
    calls := OneManyOne(f, 0x1_0000_0000);
    var ms := Emitted(cfg, calls);
    var l := |ms| - 1;
    OneManyOneEmits(cfg, f, 0x1_0000_0000);
    delivered := seq(|ms|, i => i == 0 || i == l);
    var front, dfront := ms[0..l], delivered[0..l];
    AllButTheFirst(front, dfront);
    LastTotal(ms);
    assert ReadableSpan(front, dfront, 0, 0);
    MissedIsUndelivered(front, dfront, 0, 0);
    NothingUndelivered();
    LostSince(front, dfront, 0);
    assert front[0..] == front && dfront[0..] == dfront && ms[..l] == front && delivered[..l] == dfront;
    assert !NoGapWraps(ms, delivered);
    LossAccounting(cfg, calls, delivered, 0, l);
    MissedIsUndelivered(ms, delivered, 0, l);
  }
}
