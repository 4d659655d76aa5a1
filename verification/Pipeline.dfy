/** The two threads as interleaved steps (src/capture.rs, src/main.rs): the capture thread records packets and
    drains the table into a FIFO channel; the main thread receives a map, filters and annotates it, and flushes. */
module Pipeline {
  import opened Agent
  import opened Basics
  import opened Collectors
  import opened Encoder
  import opened Exporters
  import opened Flows
  import opened FlowTables
  import opened Intervals
  import opened Records
  import opened RoundTrip
  import opened Runs
  import opened Totals

  datatype Setup = Setup(cfg: Config, collector: SocketAddr)

  /** `calls` and `suppressed` record what became of the maps received: the flushes made, and the flows filtered
      out as the agent's own export. */
  datatype State = State(
    table: Table,
    channel: seq<Table>,
    exporter: ExporterState,
    wire: seq<seq<byte>>,
    calls: seq<FlushCall>,
    suppressed: seq<Flow>)

  const INITIAL := State(map[], [], CONNECTED, [], [], [])

  datatype Step =
    | Record(packet: Flow)
    | Drain
    | Receive(batch: Batch)

  function AfterReceive(setup: Setup, s: State, batch: Batch): State
    requires s.channel != []
  {
    var call := batch.Call(setup.collector);
    State(s.table, s.channel[1..], AfterFlush(s.exporter, call),
          s.wire + PrintAll(FlushMessages(setup.cfg, s.exporter, call)),
          s.calls + CallIfAny(call),
          s.suppressed + Suppressed(batch.received, batch.order, setup.collector))
  }

  /** The next state, if the step can be taken. A drain may come at any time; a receive takes the oldest map on
      the channel, in any iteration order. */
  function Next(setup: Setup, s: State, step: Step): Option<State> {
    match step
    case Record(p) => Some(s.(table := RecordInto(s.table, p)))
    case Drain => Some(s.(table := map[], channel := s.channel + [s.table]))
    case Receive(batch) =>
      if s.channel != [] && batch.received == s.channel[0] then Some(AfterReceive(setup, s, batch)) else None
  }

  /** The state reached by a run of steps, if every one of them could be taken. */
  function Exec(setup: Setup, steps: seq<Step>): Option<State> {
    if steps == [] then Some(INITIAL)
    else
      match Exec(setup, steps[..|steps| - 1])
      case None => None
      case Some(s) => Next(setup, s, steps[|steps| - 1])
  }

  // ---- History ----------------------------------------------------------------------------------------

  /** The packets recorded and the drains. */
  function History(steps: seq<Step>): seq<Event> {
    if steps == [] then []
    else
      match steps[|steps| - 1]
      case Record(p) => History(steps[..|steps| - 1]) + [Recorded(p)]
      case Drain => History(steps[..|steps| - 1]) + [Drained]
      case Receive(_) => History(steps[..|steps| - 1])
  }

  /** The maps received, each with what its turn of the receive loop was given. */
  function Batches(steps: seq<Step>): seq<Batch> {
    if steps == [] then []
    else
      var step := steps[|steps| - 1];
      Batches(steps[..|steps| - 1]) + if step.Receive? then [step.batch] else []
  }

  function Maps(batches: seq<Batch>): seq<Table> {
    seq(|batches|, i requires 0 <= i < |batches| => batches[i].received)
  }

  /** All flows handed to the exporter. */
  function Flushed(calls: seq<FlushCall>): seq<Flow> {
    if calls == [] then [] else Flushed(calls[..|calls| - 1]) + calls[|calls| - 1].flows
  }

  lemma {:induction false} HistorySnoc(steps: seq<Step>, step: Step)
    ensures var before, after := History(steps), History(steps + [step]);
            && (step.Record? ==> Open(after) == Open(before) + [step.packet] && Closed(after) == Closed(before)
                                 && Log(after) == Log(before) + [step.packet])
            && (step.Drain? ==> Open(after) == [] && Closed(after) == Closed(before) + [Open(before)]
                                && Log(after) == Log(before))
            && (step.Receive? ==> after == before)
  {
    hide Open, Closed, Log;
    assert (steps + [step])[..|steps|] == steps;
    EventStep(History(steps), Drained);
    if step.Record? {
      EventStep(History(steps), Recorded(step.packet));
    }
  }

  /** The last step of a run, apart. */
  lemma {:induction false} LastStep(setup: Setup, steps: seq<Step>)
    requires Exec(setup, steps).Some? && steps != []
    ensures var n := |steps| - 1;
            && steps == steps[..n] + [steps[n]]
            && Exec(setup, steps[..n]).Some?
            && Exec(setup, steps) == Next(setup, Exec(setup, steps[..n]).value, steps[n])
  {
    hide Next;
  }

  // ---- What holds in every reachable state ------------------------------------------------------------

  /** The table is the fold of the open interval, the exporter's state and the wire are those of the flushes made,
      and nothing flushed is the agent's own export. */
  ghost predicate Consistent(setup: Setup, steps: seq<Step>, s: State) {
    && s.table == Fold(Open(History(steps)))
    && s.exporter == StateAfter(s.calls)
    && s.wire == PrintAll(Emitted(setup.cfg, s.calls))
    && (forall i :: 0 <= i < |Flushed(s.calls)| ==> !Flushed(s.calls)[i].key.IsSelfExport(setup.collector))
  }

  /** The channel is a FIFO of interval folds: the maps received so far, and then those still on the channel, are
      the folds of the closed intervals, in order; and the flushes made are those of the receive loop on the maps
      received. */
  ghost predicate InOrder(setup: Setup, steps: seq<Step>, s: State) {
    && Maps(Batches(steps)) + s.channel == FoldAll(Closed(History(steps)))
    && s.calls == Calls(Batches(steps), setup.collector)
  }

  lemma {:induction false} NothingYet(setup: Setup)
    ensures Fold([]) == map[] && FoldAll([]) == []
    ensures Consistent(setup, [], INITIAL) && InOrder(setup, [], INITIAL)
  {
  }

  lemma {:induction false} OneFlush(call: FlushCall)
    requires call.flows != []
    ensures CallIfAny(call) == [call]
  {
  }

  lemma {:induction false} NoFlush(call: FlushCall)
    requires call.flows == []
    ensures CallIfAny(call) == []
  {
  }

  lemma {:induction false} EmptyFlush(cfg: Config, s: ExporterState, call: FlushCall)
    requires call.flows == []
    ensures AfterFlush(s, call) == s && PrintAll(FlushMessages(cfg, s, call)) == []
  {
  }

  lemma {:induction false} FlushedSnoc(calls: seq<FlushCall>, call: FlushCall)
    ensures Flushed(calls + CallIfAny(call)) == Flushed(calls) + call.flows
  {
    if call.flows == [] {
      ConcatEmpty(calls);
      ConcatEmpty(Flushed(calls));
    } else {
      ConcatFront(calls, [call]);
      assert [call][..0] == [];
      ConcatEmpty(calls);
    }
  }

  lemma {:induction false} ReceiveKeepsConsistent(setup: Setup, steps: seq<Step>, s: State, batch: Batch)
    requires Consistent(setup, steps, s) && s.channel != []
    ensures Consistent(setup, steps, AfterReceive(setup, s, batch))
  {
    hide Print, WrappingAdd, Messages, PrintAll, FlushMessages, Fold, AfterFlush, CallIfAny, Calls;
    var call := batch.Call(setup.collector);
    KeptKeys(batch.received, batch.order, setup.collector, batch.addrs);
    FlushedSnoc(s.calls, call);
    if call.flows == [] {
      NoFlush(call);
      EmptyFlush(setup.cfg, s.exporter, call);
      ConcatEmpty(s.wire);
      ConcatEmpty(s.calls);
    } else {
      OneFlush(call);
      RunSnoc(setup.cfg, s.calls, call);
      PrintAllConcat(Emitted(setup.cfg, s.calls), FlushMessages(setup.cfg, StateAfter(s.calls), call));
    }
  }

  lemma {:induction false} StartOfRun(setup: Setup)
    ensures Exec(setup, []) == Some(INITIAL)
    ensures History([]) == [] && Open([]) == [] && Closed([]) == [] && Log([]) == []
  {
  }

  lemma {:induction false} ReachableIsConsistent(setup: Setup, steps: seq<Step>)
    requires Exec(setup, steps).Some?
    ensures Consistent(setup, steps, Exec(setup, steps).value)
  {
    hide Print, WrappingAdd, PrintAll, AfterReceive, Exec, History, Open, Closed, Log, Fold;
    NothingYet(setup);
    if steps == [] {
      StartOfRun(setup);
    } else {
      var before, step := steps[..|steps| - 1], steps[|steps| - 1];
      LastStep(setup, steps);
      ReachableIsConsistent(setup, before);
      HistorySnoc(before, step);
      match step {
        case Record(p) => FoldSnoc(Open(History(before)), p);
        case Drain =>
        case Receive(batch) => ReceiveKeepsConsistent(setup, before, Exec(setup, before).value, batch);
      }
    }
  }

  lemma {:induction false} BatchesSnoc(setup: Setup, steps: seq<Step>, step: Step)
    ensures Batches(steps + [step]) == if step.Receive? then Batches(steps) + [step.batch] else Batches(steps)
    ensures step.Receive? ==>
              Calls(Batches(steps + [step]), setup.collector)
              == Calls(Batches(steps), setup.collector) + CallIfAny(step.batch.Call(setup.collector))
  {
    hide CallIfAny;
    assert (steps + [step])[..|steps|] == steps;
    if step.Receive? {
      var batches := Batches(steps);
      assert (batches + [step.batch])[..|batches|] == batches;
    }
  }

  lemma {:induction false} ReceiveMoves(batches: seq<Batch>, batch: Batch, channel: seq<Table>)
    requires channel != [] && batch.received == channel[0]
    ensures Maps(batches + [batch]) + channel[1..] == Maps(batches) + channel
  {
    assert Maps(batches + [batch]) == Maps(batches) + [batch.received];
    assert channel == [batch.received] + channel[1..];
  }

  lemma {:induction false} ReachableIsInOrder(setup: Setup, steps: seq<Step>)
    requires Exec(setup, steps).Some?
    ensures InOrder(setup, steps, Exec(setup, steps).value)
  {
    hide PrintAll, FlushMessages, AfterFlush, CallIfAny, FoldAll, Fold, Maps, Suppressed, Exec, History, Open, Closed;
    hide Batches, Calls;
    NothingYet(setup);
    if steps == [] {
      StartOfRun(setup);
    } else {
      var before, step := steps[..|steps| - 1], steps[|steps| - 1];
      LastStep(setup, steps);
      var s := Exec(setup, before).value;
      ReachableIsInOrder(setup, before);
      HistorySnoc(before, step);
      BatchesSnoc(setup, before, step);
      match step {
        case Record(p) =>
        case Drain =>
          ReachableIsConsistent(setup, before);
          FoldAllSnoc(Closed(History(before)), Open(History(before)));
          ConcatAssoc(Maps(Batches(before)), s.channel, [s.table]);
        case Receive(batch) =>
          ReceiveMoves(Batches(before), batch, s.channel);
      }
    }
  }

  /** A receive can be taken whenever a map is on the channel, with any interface addresses and clock readings. */
  lemma {:induction false} ReceiveIsEnabled(setup: Setup, s: State, addrs: seq<IpAddr>, decidedAt: Instant,
                                            recordedAt: Instant, nowUnix: u32)
    returns (batch: Batch)
    requires s.channel != []
    ensures batch.received == s.channel[0] && batch.addrs == addrs
    ensures batch.decidedAt == decidedAt && batch.recordedAt == recordedAt && batch.nowUnix == nowUnix
    ensures Next(setup, s, Receive(batch)).Some?
  {
    var order := EnumerationExists(s.channel[0]);
    batch := Reception(s.channel[0], order, addrs, decidedAt, recordedAt, nowUnix);
  }

  /** The steps of a thread that only records and drains. */
  function StepsOf(events: seq<Event>): seq<Step> {
    if events == [] then []
    else
      match events[|events| - 1]
      case Recorded(p) => StepsOf(events[..|events| - 1]) + [Record(p)]
      case Drained => StepsOf(events[..|events| - 1]) + [Drain]
  }

  lemma {:induction false} ExecSnoc(setup: Setup, steps: seq<Step>, step: Step)
    requires Exec(setup, steps).Some?
    ensures Exec(setup, steps + [step]) == Next(setup, Exec(setup, steps).value, step)
  {
    hide Next;
    assert (steps + [step])[..|steps|] == steps;
  }

  lemma {:induction false} StepsSnoc(events: seq<Event>, e: Event)
    ensures StepsOf(events + [e]) == StepsOf(events) + [if e.Drained? then Drain else Record(e.packet)]
  {
    assert (events + [e])[..|events|] == events;
  }

  lemma {:induction false} NoSteps()
    ensures StepsOf([]) == [] && History([]) == []
  {
  }

  /** The events of the capture loop are a run: no step of it can be blocked, and table and channel end as the loop
      leaves them. */
  lemma {:induction false} CaptureLoopIsARun(setup: Setup, events: seq<Event>)
    ensures Exec(setup, StepsOf(events))
         == Some(INITIAL.(table := Fold(Open(events)), channel := FoldAll(Closed(events))))
  {
    hide FoldAll, Fold, Exec, Open, Closed, StepsOf;
    NoSteps();
    StartOfRun(setup);
    NothingYet(setup);
    if events == [] {
    } else {
      var before, e := events[..|events| - 1], events[|events| - 1];
      CaptureLoopIsARun(setup, before);
      assert events == before + [e];
      EventStep(before, e);
      StepsSnoc(before, e);
      match e {
        case Recorded(p) =>
          ExecSnoc(setup, StepsOf(before), Record(p));
          FoldSnoc(Open(before), p);
        case Drained =>
          ExecSnoc(setup, StepsOf(before), Drain);
          FoldAllSnoc(Closed(before), Open(before));
      }
    }
  }

  lemma {:induction false} HistoryStep(steps: seq<Step>, step: Step)
    requires !step.Receive?
    ensures History(steps + [step]) == History(steps) + [if step.Drain? then Drained else Recorded(step.packet)]
  {
    assert (steps + [step])[..|steps|] == steps;
  }

  lemma {:induction false} HistoryOfSteps(events: seq<Event>)
    ensures History(StepsOf(events)) == events
  {
    hide History, StepsOf;
    if events == [] {
      assert History(StepsOf([])) == [] by { NoSteps(); }
    } else {
      var before, e := events[..|events| - 1], events[|events| - 1];
      HistoryOfSteps(before);
      assert events == before + [e];
      StepsSnoc(before, e);
      HistoryStep(StepsOf(before), if e.Drained? then Drain else Record(e.packet));
    }
  }

  /** Packets and nothing else. */
  function Recordings(log: seq<Flow>): seq<Event> {
    seq(|log|, i requires 0 <= i < |log| => Recorded(log[i]))
  }

  lemma {:induction false} RecordingsAreOpen(log: seq<Flow>)
    ensures Open(Recordings(log)) == Log(Recordings(log)) == log && Closed(Recordings(log)) == []
  {
    if log == [] {
    } else {
      var n := |log| - 1;
      RecordingsAreOpen(log[..n]);
      EventStep(Recordings(log[..n]), Recorded(log[n]));
      assert Recordings(log) == Recordings(log[..n]) + [Recorded(log[n])] && log == log[..n] + [log[n]];
    }
  }

  lemma {:induction false} FoldAllOfOne(log: seq<Flow>)
    ensures FoldAll([log]) == [Fold(log)]
  {
    hide Fold;
  }

  /** Any packets make a run of a single interval: recorded, drained and received. */
  lemma {:induction false} OneInterval(setup: Setup, log: seq<Flow>) returns (steps: seq<Step>, batch: Batch)
    ensures Exec(setup, steps).Some?
    ensures Open(History(steps)) == [] && Closed(History(steps)) == [log] && Log(History(steps)) == log
    ensures batch.received == Fold(log)
    ensures Exec(setup, steps).value.calls == CallIfAny(batch.Call(setup.collector))
  {
    hide Exec, History, StepsOf, Open, Closed, Log, Fold, FoldAll, CallIfAny, AfterFlush, PrintAll, FlushMessages;
    hide Suppressed, Kept, Recordings;
    var captured := Recordings(log) + [Drained];
    RecordingsAreOpen(log);
    EventStep(Recordings(log), Drained);
    ConcatEmpty([log]);
    FoldAllOfOne(log);
    CaptureLoopIsARun(setup, captured);
    HistoryOfSteps(captured);
    var s := Exec(setup, StepsOf(captured)).value;
    batch := ReceiveIsEnabled(setup, s, [], 0, 0, 0);
    steps := StepsOf(captured) + [Receive(batch)];
    ExecSnoc(setup, StepsOf(captured), Receive(batch));
    HistorySnoc(StepsOf(captured), Receive(batch));
    ConcatEmpty(CallIfAny(batch.Call(setup.collector)));
  }

  // ---- Conservation -----------------------------------------------------------------------------------

  ghost function QueueTotal(c: Counter, maps: seq<Table>, sel: Selector): nat {
    if maps == [] then 0 else MapTotal(c, maps[0], sel) + QueueTotal(c, maps[1..], sel)
  }

  lemma {:induction false} QueueTotalSnoc(c: Counter, maps: seq<Table>, last: Table, sel: Selector)
    ensures QueueTotal(c, maps + [last], sel) == QueueTotal(c, maps, sel) + MapTotal(c, last, sel)
  {
    hide MapTotal;
    if maps == [] {
      assert [last][1..] == [];
      ConcatEmpty([last]);
    } else {
      ConcatTail(maps, [last]);
      QueueTotalSnoc(c, maps[1..], last, sel);
    }
  }

  /** Every place a selected flow's counters can be: the table, the maps on the channel, the flows filtered out,
      and the flows exported. */
  ghost function Accounted(c: Counter, s: State, sel: Selector): nat {
    MapTotal(c, s.table, sel) + QueueTotal(c, s.channel, sel)
    + Total(c, s.suppressed, sel) + Total(c, Flushed(s.calls), sel)
  }

  /** The entries of the intervals drained so far. */
  ghost function DrainedTotal(c: Counter, intervals: seq<seq<Flow>>, sel: Selector): nat {
    if intervals == [] then 0
    else
      DrainedTotal(c, intervals[..|intervals| - 1], sel) + MapTotal(c, Fold(intervals[|intervals| - 1]), sel)
  }

  /** The part of a map that a list of its keys covers. */
  ghost function KeysTotal(c: Counter, m: Table, order: seq<FlowKey>, sel: Selector): nat {
    if order == [] then 0
    else EntryTotal(c, m, sel, order[|order| - 1]) + KeysTotal(c, m, order[..|order| - 1], sel)
  }

  lemma {:induction false} KeysTotalWithout(c: Counter, m: Table, order: seq<FlowKey>, sel: Selector, k: FlowKey)
    requires k !in order
    ensures KeysTotal(c, m - {k}, order, sel) == KeysTotal(c, m, order, sel)
  {
    if order == [] {
    } else {
      KeysTotalWithout(c, m, order[..|order| - 1], sel, k);
    }
  }

  lemma {:induction false} DropLastKey(order: seq<FlowKey>, m: Table)
    requires Enumerates(order, m) && order != []
    ensures Enumerates(order[..|order| - 1], m - {order[|order| - 1]})
    ensures order[|order| - 1] !in order[..|order| - 1]
  {
    var n := |order| - 1;
    forall k | k in m - {order[n]}
      ensures k in order[..n]
    {
      var i :| 0 <= i < |order| && order[i] == k;
      assert order[..n][i] == k;
    }
  }

  /** Whatever order a map is iterated in, each entry is counted once. */
  lemma {:induction false} AnyOrderCountsOnce(c: Counter, m: Table, order: seq<FlowKey>, sel: Selector)
    requires Enumerates(order, m)
    ensures KeysTotal(c, m, order, sel) == MapTotal(c, m, sel)
    decreases |order|
  {
    hide MapTotal, EntryTotal;
    if order == [] {
      assert m == map[];
      EmptyTotals(c, sel);
    } else {
      var n := |order| - 1;
      var k := order[n];
      MapTotalSplit(c, m, sel, k);
      DropLastKey(order, m);
      AnyOrderCountsOnce(c, m - {k}, order[..n], sel);
      KeysTotalWithout(c, m, order[..n], sel, k);
    }
  }

  lemma {:induction false} NoTotal(c: Counter, sel: Selector)
    ensures Total(c, [], sel) == 0
  {
  }

  /** Filtering and annotating moves every counter either to the flows kept or to those filtered out. */
  lemma {:induction false} FilterSplitsTotals(c: Counter, m: Table, order: seq<FlowKey>, collector: SocketAddr,
                                              addrs: seq<IpAddr>, sel: Selector)
    requires forall i :: 0 <= i < |order| ==> order[i] in m
    ensures Total(c, Kept(m, order, collector, addrs), sel) + Total(c, Suppressed(m, order, collector), sel)
         == KeysTotal(c, m, order, sel)
  {
    hide Total;
    if order == [] {
      NoTotal(c, sel);
    } else {
      var n := |order| - 1;
      var k := order[n];
      FilterSplitsTotals(c, m, order[..n], collector, addrs, sel);
      var kept := Flow(k, m[k].WithDirection(k, addrs));
      TotalConcat(c, Kept(m, order[..n], collector, addrs), [kept], sel);
      TotalConcat(c, Suppressed(m, order[..n], collector), [Flow(k, m[k])], sel);
      TotalOfOne(c, kept, sel);
      TotalOfOne(c, Flow(k, m[k]), sel);
      ConcatEmpty(Kept(m, order[..n], collector, addrs));
      ConcatEmpty(Suppressed(m, order[..n], collector));
    }
  }

  lemma {:induction false} ReceiveKeepsAccounted(c: Counter, setup: Setup, s: State, batch: Batch, sel: Selector)
    requires s.channel != [] && batch.received == s.channel[0]
    ensures Accounted(c, AfterReceive(setup, s, batch), sel) == Accounted(c, s, sel)
  {
    hide MapTotal, Total, PrintAll, FlushMessages, AfterFlush, KeysTotal;
    var call := batch.Call(setup.collector);
    var gone := Suppressed(batch.received, batch.order, setup.collector);
    FlushedSnoc(s.calls, call);
    TotalConcat(c, Flushed(s.calls), call.flows, sel);
    TotalConcat(c, s.suppressed, gone, sel);
    FilterSplitsTotals(c, batch.received, batch.order, setup.collector, batch.addrs, sel);
    AnyOrderCountsOnce(c, batch.received, batch.order, sel);
  }

  lemma {:induction false} AccountedIsDrained(c: Counter, setup: Setup, steps: seq<Step>, sel: Selector)
    requires Exec(setup, steps).Some?
    ensures var s, h := Exec(setup, steps).value, History(steps);
            Accounted(c, s, sel) == DrainedTotal(c, Closed(h), sel) + MapTotal(c, Fold(Open(h)), sel)
  {
    hide MapTotal, Total, AfterReceive, Fold, Exec, History, Open, Closed, Log;
    ReachableIsConsistent(setup, steps);
    EmptyTotals(c, sel);
    StartOfRun(setup);
    if steps == [] {
      NoTotal(c, sel);
    } else {
      var before, step := steps[..|steps| - 1], steps[|steps| - 1];
      LastStep(setup, steps);
      var s := Exec(setup, before).value;
      ReachableIsConsistent(setup, before);
      AccountedIsDrained(c, setup, before, sel);
      HistorySnoc(before, step);
      match step {
        case Record(p) =>
        case Drain => QueueTotalSnoc(c, s.channel, s.table, sel);
        case Receive(batch) => ReceiveKeepsAccounted(c, setup, s, batch, sel);
      }
    }
  }

  // ---- Recorded against drained -----------------------------------------------------------------------

  /** The packets of the closed intervals. */
  function PacketTotal(c: Counter, intervals: seq<seq<Flow>>, sel: Selector): nat {
    if intervals == [] then 0
    else PacketTotal(c, intervals[..|intervals| - 1], sel) + Total(c, intervals[|intervals| - 1], sel)
  }

  lemma {:induction false} RecordedByInterval(c: Counter, events: seq<Event>, sel: Selector)
    ensures Total(c, Log(events), sel) == PacketTotal(c, Closed(events), sel) + Total(c, Open(events), sel)
  {
    hide Total;
    NoTotal(c, sel);
    if events == [] {
    } else {
      var before := events[..|events| - 1];
      RecordedByInterval(c, before, sel);
      match events[|events| - 1] {
        case Recorded(p) =>
          TotalConcat(c, Log(before), [p], sel);
          TotalConcat(c, Open(before), [p], sel);
        case Drained =>
          ConcatFront(Closed(before), [Open(before)]);
          ConcatEmpty(Closed(before));
      }
    }
  }

  /** No selected key's counter passes 2^64 - 1 between one drain and the next. */
  ghost predicate NeverSaturates(c: Counter, intervals: seq<seq<Flow>>, sel: Selector) {
    forall i :: 0 <= i < |intervals| ==> NoSaturation(c, intervals[i], sel)
  }

  lemma {:induction false} DrainedAgainstPackets(c: Counter, intervals: seq<seq<Flow>>, sel: Selector)
    ensures DrainedTotal(c, intervals, sel) <= PacketTotal(c, intervals, sel)
    ensures DrainedTotal(c, intervals, sel) == PacketTotal(c, intervals, sel) <==> NeverSaturates(c, intervals, sel)
  {
    hide MapTotal, Total, Fold, NoSaturation;
    if intervals == [] {
    } else {
      var n := |intervals| - 1;
      DrainedAgainstPackets(c, intervals[..n], sel);
      AggregationKeepsTotals(c, intervals[n], sel);
      assert NeverSaturates(c, intervals, sel)
        <==> NeverSaturates(c, intervals[..n], sel) && NoSaturation(c, intervals[n], sel);
    }
  }

  /** Conservation, in every reachable state and for every choice of keys: what was recorded is in the table, on
      the channel, filtered out or exported; nothing is ever counted twice; and nothing at all is missing exactly
      when no chosen key's counter saturated between two drains. */
  lemma {:induction false} Conservation(c: Counter, setup: Setup, steps: seq<Step>, sel: Selector)
    requires Exec(setup, steps).Some?
    ensures var s, h := Exec(setup, steps).value, History(steps);
            && Accounted(c, s, sel) <= Total(c, Log(h), sel)
            && (Accounted(c, s, sel) == Total(c, Log(h), sel)
                <==> NeverSaturates(c, Closed(h), sel) && NoSaturation(c, Open(h), sel))
  {
    hide MapTotal, Total, Accounted, NoSaturation, NeverSaturates;
    AccountedIsDrained(c, setup, steps, sel);
    RecordedByInterval(c, History(steps), sel);
    DrainedAgainstPackets(c, Closed(History(steps)), sel);
    AggregationKeepsTotals(c, Open(History(steps)), sel);
  }

  function QueuedOf(c: Counter, maps: seq<Table>, key: FlowKey): nat {
    if maps == [] then 0 else EntryTotal(c, maps[0], OnlyKey(key), key) + QueuedOf(c, maps[1..], key)
  }

  lemma {:induction false} QueueTotalOfKey(c: Counter, maps: seq<Table>, key: FlowKey)
    ensures QueueTotal(c, maps, OnlyKey(key)) == QueuedOf(c, maps, key)
  {
    hide MapTotal;
    if maps == [] {
    } else {
      MapTotalOfKey(c, maps[0], key);
      QueueTotalOfKey(c, maps[1..], key);
    }
  }

  lemma {:induction false} NoSaturationOfKey(c: Counter, log: seq<Flow>, key: FlowKey)
    ensures NoSaturation(c, log, OnlyKey(key)) <==> Total(c, log, OnlyKey(key)) <= 0xFFFF_FFFF_FFFF_FFFF
  {
  }

  /** Conservation for one key: its counter over all packets recorded is the sum of its entries in the table and
      in each map on the channel, and of its flows filtered out and exported, exactly when the packets of no
      interval between two drains bring it past 2^64 - 1; and it is never less. */
  lemma {:induction false} ConservationByKey(c: Counter, setup: Setup, steps: seq<Step>, key: FlowKey)
    requires Exec(setup, steps).Some?
    ensures var s, h, only := Exec(setup, steps).value, History(steps), OnlyKey(key);
            var accounted := EntryTotal(c, s.table, only, key) + QueuedOf(c, s.channel, key)
                             + Total(c, s.suppressed, only) + Total(c, Flushed(s.calls), only);
            && accounted <= Total(c, Log(h), only)
            && (accounted == Total(c, Log(h), only)
                <==> && (forall i :: 0 <= i < |Closed(h)| ==> Total(c, Closed(h)[i], only) <= 0xFFFF_FFFF_FFFF_FFFF)
                     && Total(c, Open(h), only) <= 0xFFFF_FFFF_FFFF_FFFF)
  {
    hide MapTotal, Total, NoSaturation;
    var s, h := Exec(setup, steps).value, History(steps);
    Conservation(c, setup, steps, OnlyKey(key));
    MapTotalOfKey(c, s.table, key);
    QueueTotalOfKey(c, s.channel, key);
    NoSaturationOfKey(c, Open(h), key);
    forall i | 0 <= i < |Closed(h)|
      ensures NoSaturation(c, Closed(h)[i], OnlyKey(key))
         <==> Total(c, Closed(h)[i], OnlyKey(key)) <= 0xFFFF_FFFF_FFFF_FFFF
    {
      NoSaturationOfKey(c, Closed(h)[i], key);
    }
  }

  // ---- On the wire ------------------------------------------------------------------------------------

  function OfRecord(c: Counter, w: WireFlow): u64 {
    if c.Bytes? then w.bytes else w.packets
  }

  /** The total over the data records a collector holds under one wire key. */
  function WireTotal(c: Counter, ws: seq<WireFlow>, key: WireKey): nat {
    if ws == [] then 0
    else
      var last := ws[|ws| - 1];
      WireTotal(c, ws[..|ws| - 1], key) + if last.key == key then OfRecord(c, last) else 0
  }

  /** The flow keys that look alike on the wire. */
  function ByWireKey(key: WireKey): Selector {
    (k: FlowKey) => ProjectKey(k) == key
  }

  lemma {:induction false} WireTotalConcat(c: Counter, a: seq<WireFlow>, b: seq<WireFlow>, key: WireKey)
    ensures WireTotal(c, a + b, key) == WireTotal(c, a, key) + WireTotal(c, b, key)
  {
    if b == [] {
      ConcatEmpty(a);
    } else {
      ConcatFront(a, b);
      WireTotalConcat(c, a, b[..|b| - 1], key);
    }
  }

  lemma {:induction false} WireTotalOfProjection(c: Counter, flows: seq<Flow>, key: WireKey)
    ensures WireTotal(c, ProjectAll(flows), key) == Total(c, flows, ByWireKey(key))
  {
    if flows == [] {
    } else {
      var n := |flows| - 1;
      WireTotalOfProjection(c, flows[..n], key);
      assert ProjectAll(flows)[..n] == ProjectAll(flows[..n]);
    }
  }

  lemma {:induction false} FamiliesSplitTotals(c: Counter, flows: seq<Flow>, sel: Selector)
    ensures Total(c, V4Of(flows), sel) + Total(c, V6Of(flows), sel) == Total(c, flows, sel)
  {
    if flows == [] {
    } else {
      var front, last := flows[..|flows| - 1], flows[|flows| - 1];
      FamiliesSplitTotals(c, front, sel);
      TotalConcat(c, V4Of(front), [last], sel);
      TotalConcat(c, V6Of(front), [last], sel);
      TotalOfOne(c, last, sel);
    }
  }

  lemma {:induction false} NoWireTotal(c: Counter, key: WireKey)
    ensures WireTotal(c, [], key) == 0
  {
  }

  lemma {:induction false} WireTotalOfRun(c: Counter, calls: seq<FlushCall>, key: WireKey)
    ensures WireTotal(c, Exported(calls), key) == Total(c, Flushed(calls), ByWireKey(key))
  {
    hide Total, WireTotal, ByWireKey, V4Of, V6Of, ProjectAll;
    if calls == [] {
      NoTotal(c, ByWireKey(key));
      NoWireTotal(c, key);
    } else {
      var before, flows := calls[..|calls| - 1], calls[|calls| - 1].flows;
      WireTotalOfRun(c, before, key);
      WireTotalConcat(c, Exported(before), ProjectAll(V4Of(flows)) + ProjectAll(V6Of(flows)), key);
      WireTotalConcat(c, ProjectAll(V4Of(flows)), ProjectAll(V6Of(flows)), key);
      WireTotalOfProjection(c, V4Of(flows), key);
      WireTotalOfProjection(c, V6Of(flows), key);
      FamiliesSplitTotals(c, flows, ByWireKey(key));
      TotalConcat(c, Flushed(before), flows, ByWireKey(key));
    }
  }

  /** What a collector holds that starts with no templates and receives everything put on the wire. */
  function Collected(s: State): Collector {
    Listen(s.wire, Everything(|s.wire|))
  }

  /** End to end: for every run of the agent and every wire key, the packets recorded under the keys that look
      like it on the wire add up to what is still in the table and on the channel, what was filtered out, and what
      the data records add up to that a collector decodes from the octets sent; exactly so when no such key's
      counter saturated between two drains. */
  lemma {:induction false} EndToEnd(c: Counter, setup: Setup, steps: seq<Step>, key: WireKey)
    requires Exec(setup, steps).Some?
    ensures var s, sel := Exec(setup, steps).value, ByWireKey(key);
            var kept := MapTotal(c, s.table, sel) + QueueTotal(c, s.channel, sel) + Total(c, s.suppressed, sel);
            var recorded := Total(c, Log(History(steps)), sel);
            && Collected(s).rejected == 0 && Collected(s).lost == 0
            && kept + WireTotal(c, Collected(s).flows, key) <= recorded
            && (kept + WireTotal(c, Collected(s).flows, key) == recorded
                <==> NeverSaturates(c, Closed(History(steps)), sel) && NoSaturation(c, Open(History(steps)), sel))
  {
    hide MapTotal, Total, WireTotal, NoSaturation, NeverSaturates, Listen, QueueTotal, ByWireKey, Emitted, PrintAll;
    var s := Exec(setup, steps).value;
    Conservation(c, setup, steps, ByWireKey(key));
    ReachableIsConsistent(setup, steps);
    WholeRunRoundTrip(setup.cfg, s.calls);
    WireTotalOfRun(c, s.calls, key);
  }

  /** Read or not, every record put on the wire is counted. */
  lemma {:induction false} ReadAndUnread(c: Counter, ms: seq<Message>, delivered: seq<bool>, key: WireKey)
    requires |ms| == |delivered|
    ensures WireTotal(c, Received(ms, delivered), key) + WireTotal(c, Unread(ms, delivered), key)
         == WireTotal(c, Contents(ms), key)
  {
    hide WireTotal, Content, Heard;
    NoWireTotal(c, key);
    if ms == [] {
    } else {
      var n := |ms| - 1;
      ReadAndUnread(c, ms[..n], delivered[..n], key);
      WireTotalConcat(c, Received(ms[..n], delivered[..n]), Content(ms[n]), key);
      WireTotalConcat(c, Unread(ms[..n], delivered[..n]), Content(ms[n]), key);
      WireTotalConcat(c, Contents(ms[..n]), Content(ms[n]), key);
      ConcatEmpty(Received(ms[..n], delivered[..n]));
      ConcatEmpty(Unread(ms[..n], delivered[..n]));
    }
  }

  /** End to end over a lossy channel, whichever sends failed: what is kept, what a collector decodes from the
      datagrams delivered, and what the datagrams lost or not readable carried make up what was recorded, under the
      same condition. */
  lemma {:induction false} EndToEndWithLoss(c: Counter, setup: Setup, steps: seq<Step>, delivered: seq<bool>,
                                            key: WireKey)
    requires Exec(setup, steps).Some? && |delivered| == |Exec(setup, steps).value.wire|
    ensures var s, h, sel := Exec(setup, steps).value, History(steps), ByWireKey(key);
            var ms := Emitted(setup.cfg, s.calls);
            |ms| == |delivered| &&
            var kept := MapTotal(c, s.table, sel) + QueueTotal(c, s.channel, sel) + Total(c, s.suppressed, sel);
            var sent := WireTotal(c, Listen(s.wire, delivered).flows, key) + WireTotal(c, Unread(ms, delivered), key);
            && kept + sent <= Total(c, Log(h), sel)
            && (kept + sent == Total(c, Log(h), sel)
                <==> NeverSaturates(c, Closed(h), sel) && NoSaturation(c, Open(h), sel))
  {
    hide MapTotal, Total, WireTotal, NoSaturation, NeverSaturates, Listen, QueueTotal, ByWireKey, Emitted, PrintAll;
    hide Received, Unread, Missed, Pending, NoGapWraps, Exec, Contents, Exported;
    var s := Exec(setup, steps).value;
    var ms := Emitted(setup.cfg, s.calls);
    Conservation(c, setup, steps, ByWireKey(key));
    ReachableIsConsistent(setup, steps);
    RunIsStream(setup.cfg, s.calls);
    ListenOnLossyChannel(ms, delivered);
    ReadAndUnread(c, ms, delivered, key);
    ContentsAreExported(setup.cfg, s.calls);
    WireTotalOfRun(c, s.calls, key);
  }

  lemma {:induction false} TotalOfTwo(c: Counter, p: Flow, q: Flow, sel: Selector)
    requires sel(p.key) && sel(q.key)
    ensures Total(c, [p, q], sel) == c.Of(p.val) + c.Of(q.val)
  {
    hide Total;
    TotalConcat(c, [p], [q], sel);
    TotalOfOne(c, p, sel);
    TotalOfOne(c, q, sel);
    assert [p] + [q] == [p, q];
  }

  lemma {:induction false} TwoSaturate(c: Counter, p: Flow, q: Flow, sel: Selector)
    requires p.key == q.key && sel(p.key) && c.Of(p.val) + c.Of(q.val) > 0xFFFF_FFFF_FFFF_FFFF
    ensures !NeverSaturates(c, [[p, q]], sel)
  {
    hide Total;
    TotalOfTwo(c, p, q, OnlyKey(p.key));
    assert !NoSaturation(c, [[p, q]][0], sel);
  }

  /** Where conservation fails: any two packets of one key whose counters together pass 2^64 - 1 make a run at whose
      end the collector has decoded, and the filter taken out, less than was recorded. */
  lemma {:induction false} SaturationLoses(c: Counter, setup: Setup, p: Flow, q: Flow) returns (steps: seq<Step>)
    requires p.key == q.key && c.Of(p.val) + c.Of(q.val) > 0xFFFF_FFFF_FFFF_FFFF
    ensures Exec(setup, steps).Some? && Log(History(steps)) == [p, q]
    ensures var s, key := Exec(setup, steps).value, ProjectKey(p.key);
            WireTotal(c, Collected(s).flows, key) + Total(c, s.suppressed, ByWireKey(key))
            < c.Of(p.val) + c.Of(q.val)
  {
    hide Exec, History, Open, Closed, Log, Total, MapTotal, QueueTotal, WireTotal, Collected;
    hide NoSaturation, NeverSaturates, CallIfAny, Fold;
    var batch;
    var key := ProjectKey(p.key);
    steps, batch := OneInterval(setup, [p, q]);
    EndToEnd(c, setup, steps, key);
    TotalOfTwo(c, p, q, ByWireKey(key));
    TwoSaturate(c, p, q, ByWireKey(key));
  }

  // ---- Fields, interval by interval -------------------------------------------------------------------

  /** The projections, v4 and then v6, of what each received map leaves to export. */
  function Decoded(batches: seq<Batch>, collector: SocketAddr): seq<WireFlow> {
    if batches == [] then []
    else
      var flows := batches[|batches| - 1].Call(collector).flows;
      Decoded(batches[..|batches| - 1], collector) + (ProjectAll(V4Of(flows)) + ProjectAll(V6Of(flows)))
  }

  lemma {:induction false} ExportedOfCall(calls: seq<FlushCall>, call: FlushCall)
    ensures Exported(calls + CallIfAny(call))
         == Exported(calls) + (ProjectAll(V4Of(call.flows)) + ProjectAll(V6Of(call.flows)))
  {
    if call.flows == [] {
      ConcatEmpty(calls);
      NoRecords();
      ConcatEmpty(Exported(calls));
    } else {
      assert (calls + [call])[..|calls|] == calls;
    }
  }

  lemma {:induction false} ExportedOfCalls(batches: seq<Batch>, collector: SocketAddr)
    ensures Exported(Calls(batches, collector)) == Decoded(batches, collector)
  {
    hide ProjectAll, V4Of, V6Of, CallIfAny;
    if batches == [] {
    } else {
      var before := batches[..|batches| - 1];
      ExportedOfCalls(before, collector);
      ExportedOfCall(Calls(before, collector), batches[|batches| - 1].Call(collector));
    }
  }

  /** End to end, field by field: what a collector decodes is, received interval by received interval, the wire
      projection, v4 and then v6, of exactly the entries of that interval's table that are not the agent's own
      export, each once, annotated with the interface addresses of that turn. */
  lemma {:induction false} FieldsEndToEnd(setup: Setup, steps: seq<Step>)
    requires Exec(setup, steps).Some?
    ensures var s, batches, closed := Exec(setup, steps).value, Batches(steps), Closed(History(steps));
            && Collected(s).flows == Decoded(batches, setup.collector)
            && |batches| <= |closed|
            && forall i :: 0 <= i < |batches| ==>
                 && batches[i].received == Fold(closed[i])
                 && ExactlyTheOthers(batches[i].Call(setup.collector).flows, Fold(closed[i]), Fold(closed[i]).Keys,
                                     setup.collector, batches[i].addrs)
  {
    hide Listen, Emitted, PrintAll, Exec, Fold, Closed, History, Exported, Decoded, Calls, Batches, ExactlyTheOthers;
    var s, batches, closed := Exec(setup, steps).value, Batches(steps), Closed(History(steps));
    ReachableIsConsistent(setup, steps);
    ReachableIsInOrder(setup, steps);
    WholeRunRoundTrip(setup.cfg, s.calls);
    ExportedOfCalls(batches, setup.collector);
    forall i | 0 <= i < |batches|
      ensures batches[i].received == Fold(closed[i])
      ensures ExactlyTheOthers(batches[i].Call(setup.collector).flows, Fold(closed[i]), Fold(closed[i]).Keys,
                               setup.collector, batches[i].addrs)
    {
      assert (Maps(batches) + s.channel)[i] == batches[i].received;
      assert FoldAll(closed)[i] == Fold(closed[i]);
      CallIsExact(batches[i], setup.collector);
    }
  }

  // ---- The agent's own export -------------------------------------------------------------------------

  /** The addresses are those of a flow to `ip`. */
  predicate GoesTo(addrs: FlowAddrs, ip: IpAddr) {
    match addrs
    case V4(_, dst) => ip == IpV4(dst)
    case V6(_, dst) => ip == IpV6(dst)
  }

  /** A wire record a collector takes for the agent's own export. */
  predicate LooksLikeSelfExport(key: WireKey, collector: SocketAddr) {
    key.protocol == 17 && GoesTo(key.addrs, collector.ip) && key.dstPort == collector.port
  }

  /** A flow the filter lets through that still reads as self-export on the wire: another protocol under UDP's
      number, or UDP without a destination port to a collector on port 0. */
  predicate Impostor(key: FlowKey, collector: SocketAddr) {
    && GoesTo(key.addrs, collector.ip)
    && (if key.protocol == Udp then key.dstPort == None && collector.port == 0
        else key.protocol.Number() == Some(17)
             && (key.dstPort == Some(collector.port) || (key.dstPort == None && collector.port == 0)))
  }

  lemma {:induction false} SelfExportOnTheWire(key: FlowKey, collector: SocketAddr)
    ensures LooksLikeSelfExport(ProjectKey(key), collector)
       <==> key.IsSelfExport(collector) || Impostor(key, collector)
  {
  }

  ghost predicate ShownAs(ws: seq<WireFlow>, key: WireKey) {
    exists i :: 0 <= i < |ws| && ws[i].key == key
  }

  ghost predicate HasProjection(flows: seq<Flow>, key: WireKey) {
    exists i :: 0 <= i < |flows| && ProjectKey(flows[i].key) == key
  }

  lemma {:induction false} ShownConcat(a: seq<WireFlow>, b: seq<WireFlow>, key: WireKey)
    ensures ShownAs(a + b, key) <==> ShownAs(a, key) || ShownAs(b, key)
  {
    if i :| 0 <= i < |a| && a[i].key == key {
      assert (a + b)[i].key == key;
    }
    if i :| 0 <= i < |b| && b[i].key == key {
      assert (a + b)[|a| + i].key == key;
    }
  }

  lemma {:induction false} ProjectionConcat(a: seq<Flow>, b: seq<Flow>, key: WireKey)
    ensures HasProjection(a + b, key) <==> HasProjection(a, key) || HasProjection(b, key)
  {
    hide ProjectKey;
    if i :| 0 <= i < |a| && ProjectKey(a[i].key) == key {
      assert ProjectKey((a + b)[i].key) == key;
    }
    if i :| 0 <= i < |b| && ProjectKey(b[i].key) == key {
      assert ProjectKey((a + b)[|a| + i].key) == key;
    }
  }

  lemma {:induction false} ShownProjections(flows: seq<Flow>, key: WireKey)
    ensures ShownAs(ProjectAll(flows), key) <==> HasProjection(flows, key)
  {
    hide ProjectKey;
    assert forall i :: 0 <= i < |flows| ==> ProjectAll(flows)[i].key == ProjectKey(flows[i].key);
  }

  lemma {:induction false} NoProjection(key: WireKey)
    ensures !HasProjection([], key) && !ShownAs([], key)
  {
  }

  lemma {:induction false} FamiliesSplitProjections(flows: seq<Flow>, key: WireKey)
    ensures HasProjection(flows, key) <==> HasProjection(V4Of(flows), key) || HasProjection(V6Of(flows), key)
  {
    hide HasProjection;
    if flows == [] {
      NoProjection(key);
    } else {
      var front, last := flows[..|flows| - 1], flows[|flows| - 1];
      FamiliesSplitProjections(front, key);
      ProjectionConcat(front, [last], key);
      ProjectionConcat(V4Of(front), [last], key);
      ProjectionConcat(V6Of(front), [last], key);
      assert flows == front + [last];
    }
  }

  lemma {:induction false} ExportedComesFromFlushed(calls: seq<FlushCall>, key: WireKey)
    ensures ShownAs(Exported(calls), key) <==> HasProjection(Flushed(calls), key)
  {
    hide ShownAs, HasProjection, V4Of, V6Of, ProjectAll;
    if calls == [] {
      NoProjection(key);
    } else {
      var before, flows := calls[..|calls| - 1], calls[|calls| - 1].flows;
      ExportedComesFromFlushed(before, key);
      ShownConcat(Exported(before), ProjectAll(V4Of(flows)) + ProjectAll(V6Of(flows)), key);
      ShownConcat(ProjectAll(V4Of(flows)), ProjectAll(V6Of(flows)), key);
      ShownProjections(V4Of(flows), key);
      ShownProjections(V6Of(flows), key);
      FamiliesSplitProjections(flows, key);
      ProjectionConcat(Flushed(before), flows, key);
    }
  }

  ghost predicate AnyReadsAsSelfExport(ws: seq<WireFlow>, collector: SocketAddr) {
    exists i :: 0 <= i < |ws| && LooksLikeSelfExport(ws[i].key, collector)
  }

  ghost predicate AnyImpostor(flows: seq<Flow>, collector: SocketAddr) {
    exists i :: 0 <= i < |flows| && Impostor(flows[i].key, collector)
  }

  /** No self-export on the wire: in any run, some decoded record reads as UDP to the collector exactly when an
      impostor was exported. */
  lemma {:induction false} SelfExportOnlyByImpostors(setup: Setup, steps: seq<Step>)
    requires Exec(setup, steps).Some?
    ensures var s := Exec(setup, steps).value;
            AnyReadsAsSelfExport(Collected(s).flows, setup.collector)
            <==> AnyImpostor(Flushed(s.calls), setup.collector)
  {
    hide Listen, Emitted, PrintAll, Exported, Flushed, ProjectKey, LooksLikeSelfExport, Impostor;
    var s := Exec(setup, steps).value;
    var ws, flows := Exported(s.calls), Flushed(s.calls);
    ReachableIsConsistent(setup, steps);
    WholeRunRoundTrip(setup.cfg, s.calls);
    if i :| 0 <= i < |ws| && LooksLikeSelfExport(ws[i].key, setup.collector) {
      assert ShownAs(ws, ws[i].key);
      ExportedComesFromFlushed(s.calls, ws[i].key);
      var j :| 0 <= j < |flows| && ProjectKey(flows[j].key) == ws[i].key;
      SelfExportOnTheWire(flows[j].key, setup.collector);
    }
    if j :| 0 <= j < |flows| && Impostor(flows[j].key, setup.collector) {
      SelfExportOnTheWire(flows[j].key, setup.collector);
      assert HasProjection(flows, ProjectKey(flows[j].key));
      ExportedComesFromFlushed(s.calls, ProjectKey(flows[j].key));
      var i :| 0 <= i < |ws| && ws[i].key == ProjectKey(flows[j].key);
    }
  }

  function RecordedKeys(steps: seq<Step>): set<FlowKey> {
    set p <- Log(History(steps)) :: p.key
  }

  /** Every key in the table, on the channel or exported is one of these. */
  ghost predicate KeysWithin(s: State, keys: set<FlowKey>) {
    && s.table.Keys <= keys
    && (forall i :: 0 <= i < |s.channel| ==> s.channel[i].Keys <= keys)
    && (forall f :: f in Flushed(s.calls) ==> f.key in keys)
  }

  lemma {:induction false} StartWithin(keys: set<FlowKey>)
    ensures KeysWithin(INITIAL, keys)
  {
  }

  lemma {:induction false} WiderKeys(s: State, keys: set<FlowKey>, wider: set<FlowKey>)
    requires KeysWithin(s, keys) && keys <= wider
    ensures KeysWithin(s, wider)
  {
    hide Flushed;
  }

  lemma {:induction false} ReceiveKeepsKeys(setup: Setup, s: State, batch: Batch, keys: set<FlowKey>)
    requires KeysWithin(s, keys) && s.channel != [] && batch.received == s.channel[0]
    ensures KeysWithin(AfterReceive(setup, s, batch), keys)
  {
    hide PrintAll, FlushMessages, AfterFlush, CallIfAny, Suppressed, Kept, Flushed;
    var flows := batch.Call(setup.collector).flows;
    FlushedSnoc(s.calls, batch.Call(setup.collector));
    assert forall f :: f in flows ==> f.key in keys by {
      CallIsExact(batch, setup.collector);
    }
  }

  lemma {:induction false} StepKeepsKeys(setup: Setup, s: State, step: Step, keys: set<FlowKey>)
    requires KeysWithin(s, keys) && Next(setup, s, step).Some?
    requires step.Record? ==> step.packet.key in keys
    ensures KeysWithin(Next(setup, s, step).value, keys)
  {
    hide AfterReceive, Flushed, Accumulate;
    if step.Receive? {
      ReceiveKeepsKeys(setup, s, step.batch, keys);
    }
  }

  lemma {:induction false} RecordedKeysSnoc(steps: seq<Step>, step: Step)
    ensures RecordedKeys(steps) <= RecordedKeys(steps + [step])
    ensures step.Record? ==> step.packet.key in RecordedKeys(steps + [step])
  {
    hide Log, History;
    HistorySnoc(steps, step);
    if step.Record? {
      assert step.packet == Log(History(steps + [step]))[|Log(History(steps))|];
    }
  }

  lemma {:induction false} ReachableKeysWereRecorded(setup: Setup, steps: seq<Step>)
    requires Exec(setup, steps).Some?
    ensures KeysWithin(Exec(setup, steps).value, RecordedKeys(steps))
  {
    hide Next, Exec, RecordedKeys, KeysWithin;
    if steps == [] {
      StartOfRun(setup);
      StartWithin(RecordedKeys([]));
    } else {
      var before, step := steps[..|steps| - 1], steps[|steps| - 1];
      LastStep(setup, steps);
      RecordedKeysSnoc(before, step);
      ReachableKeysWereRecorded(setup, before);
      WiderKeys(Exec(setup, before).value, RecordedKeys(before), RecordedKeys(steps));
      StepKeepsKeys(setup, Exec(setup, before).value, step, RecordedKeys(steps));
    }
  }

  /** For a collector on a port other than 0, and with UDP's number carried by UDP alone among the packets
      recorded, no record on the wire ever reads as UDP to the collector. */
  lemma {:induction false} NoSelfExportOnTheWire(setup: Setup, steps: seq<Step>)
    requires Exec(setup, steps).Some?
    requires setup.collector.port != 0
    requires forall k :: k in RecordedKeys(steps) && k.protocol.Number() == Some(17) ==> k.protocol == Udp
    ensures !AnyReadsAsSelfExport(Collected(Exec(setup, steps).value).flows, setup.collector)
  {
    hide Collected, RecordedKeys, AnyReadsAsSelfExport;
    SelfExportOnlyByImpostors(setup, steps);
    ReachableKeysWereRecorded(setup, steps);
  }

  lemma {:induction false} NothingFlushed()
    ensures Flushed([]) == []
  {
  }

  lemma {:induction false} OthersAreFlushed(p: Flow, flows: seq<Flow>, m: Table, collector: SocketAddr,
                                            addrs: seq<IpAddr>)
    requires ExactlyTheOthers(flows, m, m.Keys, collector, addrs)
    requires p.key in m && Impostor(p.key, collector)
    ensures AnyImpostor(flows, collector)
  {
    assert !p.key.IsSelfExport(collector);
    var f :| f in flows && f.key == p.key;
    assert exists i :: 0 <= i < |flows| && flows[i] == f;
  }

  lemma {:induction false} FoldOfOne(p: Flow)
    ensures p.key in Fold([p])
  {
    FoldSnoc([], p);
    assert [] + [p] == [p];
  }

  /** Each impostor has a run that puts it on the wire: recording it, draining and receiving. */
  lemma {:induction false} ImpostorReachesTheWire(setup: Setup, p: Flow) returns (steps: seq<Step>)
    requires Impostor(p.key, setup.collector)
    ensures Exec(setup, steps).Some? && Log(History(steps)) == [p]
    ensures AnyReadsAsSelfExport(Collected(Exec(setup, steps).value).flows, setup.collector)
  {
    hide Collected, AnyReadsAsSelfExport, AnyImpostor, Exec, History, Log, Fold, Flushed, CallIfAny, ExactlyTheOthers;
    var batch;
    steps, batch := OneInterval(setup, [p]);
    var call := batch.Call(setup.collector);
    ConcatEmpty(CallIfAny(call));
    ConcatEmpty(call.flows);
    NothingFlushed();
    FlushedSnoc([], call);
    FoldOfOne(p);
    CallIsExact(batch, setup.collector);
    OthersAreFlushed(p, call.flows, batch.received, setup.collector, batch.addrs);
    SelfExportOnlyByImpostors(setup, steps);
  }

  /** The port matters: for every collector on port 0 there is such a run, of one UDP packet without a port. */
  lemma {:induction false} PortZeroIsShown(cfg: Config, ip: IpAddr) returns (p: Flow, steps: seq<Step>)
    ensures p.key.protocol == Udp
    ensures var setup := Setup(cfg, SocketAddr(ip, 0));
            && Exec(setup, steps).Some? && Log(History(steps)) == [p]
            && AnyReadsAsSelfExport(Collected(Exec(setup, steps).value).flows, setup.collector)
  {
    hide Collected, AnyReadsAsSelfExport, Exec, Log, History;
    var addrs := match ip
      case IpV4(o) => V4(IPV4_UNSPECIFIED, o)
      case IpV6(o) => V6(IPV6_UNSPECIFIED, o);
    p := Flow(FlowKey(addrs, None, None, Udp), FlowVal(1, 1, None, None, None, 0, None, 0, 0));
    steps := ImpostorReachesTheWire(Setup(cfg, SocketAddr(ip, 0)), p);
  }
}
