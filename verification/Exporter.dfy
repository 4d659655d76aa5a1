/** The exporter (src/exporter.rs): its state, its flush, and the datagrams a run of flushes hands to the socket. */
module Exporters {
  import opened Basics
  import opened Encoder
  import opened Flows

  type Mtu = m: u16 | MtuHolds(m) witness MTU

  datatype Config = Config(mtu: Mtu, odid: u32)

  /** Nanoseconds on the monotone clock. */
  type Instant = nat

  const TEMPLATE_REFRESH: Instant := 30_000_000_000

  /** `Instant::elapsed`, which saturates at zero. */
  function Elapsed(now: Instant, since: Instant): nat {
    Max(0, now - since)
  }

  // ---- Specification ----------------------------------------------------------------------------------

  datatype ExporterState = ExporterState(sequence: u32, lastTemplateSend: Option<Instant>)

  const CONNECTED := ExporterState(0, None)

  /** A call of `flush`, with the clock readings it makes: when the template decision is taken, when the template
      send is recorded, and the wall clock. */
  datatype FlushCall = FlushCall(flows: seq<Flow>, decidedAt: Instant, recordedAt: Instant, nowUnix: u32)

  predicate TemplateDue(s: ExporterState, now: Instant) {
    match s.lastTemplateSend
    case None => true
    case Some(t) => Elapsed(now, t) >= TEMPLATE_REFRESH
  }

  function AfterFlush(s: ExporterState, call: FlushCall): ExporterState {
    if call.flows == [] then s
    else
      ExporterState(WrappingAdd(s.sequence, |call.flows|),
                    if TemplateDue(s, call.decidedAt) then Some(call.recordedAt) else s.lastTemplateSend)
  }

  function FlushMessages(cfg: Config, s: ExporterState, call: FlushCall): seq<Message> {
    if call.flows == [] then []
    else
      Messages(cfg.mtu, call.flows, s.sequence, TemplateDue(s, call.decidedAt), Stamp(call.nowUnix, cfg.odid))
  }

  /** The state after a run of flushes, whatever became of their datagrams. */
  function StateAfter(calls: seq<FlushCall>): ExporterState {
    if calls == [] then CONNECTED
    else AfterFlush(StateAfter(calls[..|calls| - 1]), calls[|calls| - 1])
  }

  /** The messages handed to the socket over a run of flushes. */
  function Emitted(cfg: Config, calls: seq<FlushCall>): seq<Message> {
    if calls == [] then []
    else
      var before, last := calls[..|calls| - 1], calls[|calls| - 1];
      Emitted(cfg, before) + FlushMessages(cfg, StateAfter(before), last)
  }

  lemma {:induction false} RunSnoc(cfg: Config, calls: seq<FlushCall>, call: FlushCall)
    ensures StateAfter(calls + [call]) == AfterFlush(StateAfter(calls), call)
    ensures Emitted(cfg, calls + [call]) == Emitted(cfg, calls) + FlushMessages(cfg, StateAfter(calls), call)
  {
    hide AfterFlush, FlushMessages;
    ConcatFront(calls, [call]);
    assert [call][..0] == [];
    ConcatEmpty(calls);
  }

  lemma {:induction false} PrintAllConcat(a: seq<Message>, b: seq<Message>)
    ensures PrintAll(a + b) == PrintAll(a) + PrintAll(b)
  {
    hide Print;
  }

  // ---- The exporter -----------------------------------------------------------------------------------

  type IoError = int

  /** The first `n` results contain no error; or `result` is the last error among them. */
  ghost predicate LastError(outcome: nat -> Option<IoError>, n: nat, result: Option<IoError>) {
    if result == None then forall i: nat :: i < n ==> outcome(i) == None
    else exists i: nat :: i < n && outcome(i) == result && forall j: nat :: i < j < n ==> outcome(j) == None
  }

  lemma {:induction false} NoError(outcome: nat -> Option<IoError>)
    ensures LastError(outcome, 0, None)
  {
  }

  class Exporter {
    const odid: u32
    var sequence: u32
    var lastTemplateSend: Option<Instant>
    /** Every datagram handed to the socket, whether or not the send succeeded. */
    var attempted: seq<seq<byte>>
    ghost var history: seq<FlushCall>

    ghost predicate Valid()
      reads this
    {
      && ExporterState(sequence, lastTemplateSend) == StateAfter(history)
      && attempted == PrintAll(Emitted(Config(1200, odid), history))
    }

    constructor Connect(odid: u32)
      ensures Valid() && history == [] && this.odid == odid
      ensures sequence == 0 && lastTemplateSend == None && attempted == []
    {
      this.odid := odid;
      sequence, lastTemplateSend := 0, None;
      attempted, history := [], [];
    }

    /** `outcome(i)` is the socket's answer to the i-th send of this flush. */
    method Flush(flows: seq<Flow>, decidedAt: Instant, recordedAt: Instant, nowUnix: u32,
                 outcome: nat -> Option<IoError>)
      returns (result: Option<IoError>)
      requires Valid()
      modifies this
      ensures Valid()
      ensures history == old(history) + [FlushCall(flows, decidedAt, recordedAt, nowUnix)]
      ensures attempted == old(attempted)
              + PrintAll(FlushMessages(Config(1200, odid), StateAfter(old(history)),
                                       FlushCall(flows, decidedAt, recordedAt, nowUnix)))
      ensures LastError(outcome, |attempted| - |old(attempted)|, result)
    {
      hide Messages, Print, WrappingAdd, PrintAll, Emitted, StateAfter, LastError;
      ghost var call := FlushCall(flows, decidedAt, recordedAt, nowUnix);
      RunSnoc(Config(1200, odid), history, call);
      PrintAllConcat(Emitted(Config(1200, odid), history),
                     FlushMessages(Config(1200, odid), StateAfter(history), call));
      history := history + [call];
      if flows == [] {
        ConcatEmpty(attempted);
        NoError(outcome);
        return None;
      }
      var includeTemplateSet := match lastTemplateSend
        case None => true
        case Some(t) => Elapsed(decidedAt, t) >= TEMPLATE_REFRESH;
      var datagrams, newSequence := BuildDatagrams(MTU, flows, sequence, includeTemplateSet, nowUnix, odid);
      if includeTemplateSet {
        lastTemplateSend := Some(recordedAt);
      }
      sequence := newSequence;
      result := SendAll(datagrams, outcome);
    }

    /** A failed send is remembered and the next datagram is still sent. */
    method SendAll(datagrams: seq<seq<byte>>, outcome: nat -> Option<IoError>) returns (result: Option<IoError>)
      modifies this`attempted
      ensures attempted == old(attempted) + datagrams
      ensures LastError(outcome, |datagrams|, result)
    {
      result := None;
      for i := 0 to |datagrams|
        invariant attempted == old(attempted) + datagrams[..i]
        invariant LastError(outcome, i, result)
      {
        assert datagrams[..i + 1] == datagrams[..i] + [datagrams[i]];
        ConcatAssoc(old(attempted), datagrams[..i], [datagrams[i]]);
        attempted := attempted + [datagrams[i]];
        if outcome(i).Some? {
          result := outcome(i);
        }
      }
      assert datagrams[..|datagrams|] == datagrams;
    }
  }
}
