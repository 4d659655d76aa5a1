/** The main thread (src/main.rs): filter, annotate, collect and flush every map received. */
module Agent {
  import opened Basics
  import opened Exporters
  import opened Flows
  import opened FlowTables

  /** Some order in which a map's iterator may visit its keys: each exactly once. */
  ghost predicate Enumerates(order: seq<FlowKey>, m: Table) {
    && (forall i :: 0 <= i < |order| ==> order[i] in m)
    && (forall i, j :: 0 <= i < j < |order| ==> order[i] != order[j])
    && (forall k :: k in m ==> k in order)
  }

  /** Every map has such an order. */
  lemma {:induction false} EnumerationExists(m: Table) returns (order: seq<FlowKey>)
    ensures Enumerates(order, m)
    decreases |m|
  {
    if m == map[] {
      order := [];
    } else {
      var k :| k in m;
      assert (m - {k}).Keys == m.Keys - {k};
      var rest := EnumerationExists(m - {k});
      order := rest + [k];
    }
  }

  /** The flows kept: the agent's own export filtered out, the others annotated with their direction. */
  function Kept(m: Table, order: seq<FlowKey>, collector: SocketAddr, addrs: seq<IpAddr>): seq<Flow>
    requires forall i :: 0 <= i < |order| ==> order[i] in m
  {
    if order == [] then []
    else
      var k := order[|order| - 1];
      Kept(m, order[..|order| - 1], collector, addrs)
      + if k.IsSelfExport(collector) then [] else [Flow(k, m[k].WithDirection(k, addrs))]
  }

  /** The flows filtered out. */
  function Suppressed(m: Table, order: seq<FlowKey>, collector: SocketAddr): seq<Flow>
    requires forall i :: 0 <= i < |order| ==> order[i] in m
  {
    if order == [] then []
    else
      var k := order[|order| - 1];
      Suppressed(m, order[..|order| - 1], collector) + if k.IsSelfExport(collector) then [Flow(k, m[k])] else []
  }

  lemma {:induction false} KeptComeFromOrder(m: Table, order: seq<FlowKey>, collector: SocketAddr,
                                             addrs: seq<IpAddr>)
    requires forall i :: 0 <= i < |order| ==> order[i] in m
    ensures forall f :: f in Kept(m, order, collector, addrs) ==>
              && f.key in order && !f.key.IsSelfExport(collector)
              && f.val == m[f.key].WithDirection(f.key, addrs)
  {
    if order == [] {
    } else {
      var n := |order| - 1;
      var front, flows := Kept(m, order[..n], collector, addrs), Kept(m, order, collector, addrs);
      KeptComeFromOrder(m, order[..n], collector, addrs);
      assert forall i :: 0 <= i < |front| ==> flows[i] == front[i];
      assert forall k :: k in order[..n] ==> k in order;
    }
  }

  lemma {:induction false} KeptAreDistinct(m: Table, order: seq<FlowKey>, collector: SocketAddr, addrs: seq<IpAddr>)
    requires forall i :: 0 <= i < |order| ==> order[i] in m
    requires forall i, j :: 0 <= i < j < |order| ==> order[i] != order[j]
    ensures forall i, j :: 0 <= i < j < |Kept(m, order, collector, addrs)| ==>
              Kept(m, order, collector, addrs)[i].key != Kept(m, order, collector, addrs)[j].key
  {
    if order == [] {
    } else {
      var n := |order| - 1;
      var front, flows := Kept(m, order[..n], collector, addrs), Kept(m, order, collector, addrs);
      KeptAreDistinct(m, order[..n], collector, addrs);
      KeptComeFromOrder(m, order[..n], collector, addrs);
      assert forall i :: 0 <= i < |front| ==> flows[i] == front[i];
      assert order[n] !in order[..n];
    }
  }

  lemma {:induction false} OthersAreKept(m: Table, order: seq<FlowKey>, collector: SocketAddr, addrs: seq<IpAddr>,
                                         k: FlowKey)
    requires forall i :: 0 <= i < |order| ==> order[i] in m
    requires k in order && !k.IsSelfExport(collector)
    ensures exists f :: f in Kept(m, order, collector, addrs) && f.key == k
  {
    var n := |order| - 1;
    var front, flows := Kept(m, order[..n], collector, addrs), Kept(m, order, collector, addrs);
    if k == order[n] {
      assert flows[|front|].key == k;
    } else {
      assert k in order[..n];
      OthersAreKept(m, order[..n], collector, addrs, k);
      var i :| 0 <= i < |front| && front[i].key == k;
      assert flows[i] == front[i];
    }
  }

  /** The flows are the entries of the map under the given keys that are not the agent's own export, each once,
      annotated with its direction. */
  ghost predicate ExactlyTheOthers(flows: seq<Flow>, m: Table, keys: set<FlowKey>, collector: SocketAddr,
                                   addrs: seq<IpAddr>)
    requires keys <= m.Keys
  {
    && (forall i, j :: 0 <= i < j < |flows| ==> flows[i].key != flows[j].key)
    && (forall f :: f in flows ==>
          f.key in keys && !f.key.IsSelfExport(collector) && Annotated(f.val, m[f.key], f.key, addrs))
    && (forall k :: k in keys && !k.IsSelfExport(collector) ==> exists f :: f in flows && f.key == k)
  }

  /** Each key of a received map yields at most one record, and exactly the keys that are not self-export do,
      whatever the iteration order. */
  lemma {:induction false} KeptKeys(m: Table, order: seq<FlowKey>, collector: SocketAddr, addrs: seq<IpAddr>)
    requires forall i :: 0 <= i < |order| ==> order[i] in m
    requires forall i, j :: 0 <= i < j < |order| ==> order[i] != order[j]
    ensures ExactlyTheOthers(Kept(m, order, collector, addrs), m, (set k <- order), collector, addrs)
  {
    KeptComeFromOrder(m, order, collector, addrs);
    KeptAreDistinct(m, order, collector, addrs);
    forall f | f in Kept(m, order, collector, addrs)
      ensures Annotated(f.val, m[f.key], f.key, addrs)
    {
      WithDirectionAnnotates(m[f.key], f.key, addrs);
    }
    forall k | k in order && !k.IsSelfExport(collector)
      ensures exists f :: f in Kept(m, order, collector, addrs) && f.key == k
    {
      OthersAreKept(m, order, collector, addrs, k);
    }
  }

  /** The flows follow the iteration order: those at `idx`, which are all that are not the agent's own export. */
  ghost predicate FollowsAt(flows: seq<Flow>, order: seq<FlowKey>, collector: SocketAddr, idx: seq<nat>) {
    && Increasing(idx, |order|) && |idx| == |flows|
    && (forall k :: 0 <= k < |flows| ==> flows[k].key == order[idx[k]])
    && (forall t :: 0 <= t < |order| ==> (t in idx <==> !order[t].IsSelfExport(collector)))
  }

  lemma {:induction false} FollowsNext(flows: seq<Flow>, order: seq<FlowKey>, collector: SocketAddr, idx: seq<nat>,
                                       last: Flow)
    requires FollowsAt(flows, order, collector, idx)
    ensures if last.key.IsSelfExport(collector) then FollowsAt(flows, order + [last.key], collector, idx)
            else FollowsAt(flows + [last], order + [last.key], collector, idx + [|order|])
  {
    var whole := order + [last.key];
    if last.key.IsSelfExport(collector) {
      assert |order| !in idx;
    } else {
      forall t | 0 <= t < |whole|
        ensures t in idx + [|order|] <==> !whole[t].IsSelfExport(collector)
      {
        assert t < |order| ==> whole[t] == order[t];
      }
    }
  }

  lemma {:induction false} KeptFollowsOrder(m: Table, order: seq<FlowKey>, collector: SocketAddr, addrs: seq<IpAddr>)
    returns (idx: seq<nat>)
    requires forall i :: 0 <= i < |order| ==> order[i] in m
    ensures FollowsAt(Kept(m, order, collector, addrs), order, collector, idx)
  {
    if order == [] {
      idx := [];
    } else {
      var front, k := order[..|order| - 1], order[|order| - 1];
      idx := KeptFollowsOrder(m, front, collector, addrs);
      FollowsNext(Kept(m, front, collector, addrs), front, collector, idx, Flow(k, m[k].WithDirection(k, addrs)));
      assert order == front + [k];
      if k.IsSelfExport(collector) {
        ConcatEmpty(Kept(m, front, collector, addrs));
      } else {
        idx := idx + [|front|];
      }
    }
  }

  /** One received map, with the iteration order, the interface addresses and the clock readings of its turn. */
  datatype Reception = Reception(
    received: Table,
    order: seq<FlowKey>,
    addrs: seq<IpAddr>,
    decidedAt: Instant,
    recordedAt: Instant,
    nowUnix: u32)
  {
    ghost predicate Valid() {
      Enumerates(order, received)
    }

    function Call(collector: SocketAddr): FlushCall
      requires Valid()
    {
      FlushCall(Kept(received, order, collector, addrs), decidedAt, recordedAt, nowUnix)
    }
  }

  type Batch = r: Reception | r.Valid() witness Reception(map[], [], [], 0, 0, 0)

  lemma {:induction false} CallIsExact(batch: Batch, collector: SocketAddr)
    ensures ExactlyTheOthers(batch.Call(collector).flows, batch.received, batch.received.Keys, collector, batch.addrs)
  {
    hide ExactlyTheOthers;
    KeptKeys(batch.received, batch.order, collector, batch.addrs);
    assert (set k <- batch.order) == batch.received.Keys;
  }

  /** A map with nothing to export leads to no flush. */
  function CallIfAny(call: FlushCall): seq<FlushCall> {
    if call.flows == [] then [] else [call]
  }

  /** The flushes a sequence of received maps leads to. */
  function Calls(batches: seq<Batch>, collector: SocketAddr): seq<FlushCall> {
    if batches == [] then []
    else
      Calls(batches[..|batches| - 1], collector) + CallIfAny(batches[|batches| - 1].Call(collector))
  }

  /** The call exports what the batch leaves to export, with the clock readings of its turn. */
  ghost predicate Serves(call: FlushCall, batch: Batch, collector: SocketAddr) {
    && ExactlyTheOthers(call.flows, batch.received, batch.received.Keys, collector, batch.addrs)
    && call.decidedAt == batch.decidedAt && call.recordedAt == batch.recordedAt && call.nowUnix == batch.nowUnix
  }

  /** Something in the batch is not the agent's own export. */
  ghost predicate HasOthers(batch: Batch, collector: SocketAddr) {
    exists k :: k in batch.received && !k.IsSelfExport(collector)
  }

  /** The calls serve, in order, exactly the batches with something to export. */
  ghost predicate ServedAt(calls: seq<FlushCall>, batches: seq<Batch>, collector: SocketAddr, idx: seq<nat>) {
    && Increasing(idx, |batches|) && |idx| == |calls|
    && (forall k :: 0 <= k < |calls| ==> Serves(calls[k], batches[idx[k]], collector))
    && (forall t :: 0 <= t < |batches| ==> (t in idx <==> HasOthers(batches[t], collector)))
  }

  ghost predicate ServedInOrder(calls: seq<FlushCall>, batches: seq<Batch>, collector: SocketAddr) {
    exists idx: seq<nat> :: ServedAt(calls, batches, collector, idx)
  }

  lemma {:induction false} CallServes(batch: Batch, collector: SocketAddr)
    ensures Serves(batch.Call(collector), batch, collector)
    ensures HasOthers(batch, collector) <==> batch.Call(collector).flows != []
  {
    CallIsExact(batch, collector);
    var flows := batch.Call(collector).flows;
    if flows != [] {
      assert flows[0] in flows;
    }
  }

  lemma {:induction false} ServedNext(calls: seq<FlushCall>, batches: seq<Batch>, collector: SocketAddr, idx: seq<nat>,
                                      batch: Batch)
    requires ServedAt(calls, batches, collector, idx)
    ensures if HasOthers(batch, collector) then
              ServedAt(calls + [batch.Call(collector)], batches + [batch], collector, idx + [|batches|])
            else ServedAt(calls, batches + [batch], collector, idx)
  {
    hide Serves, HasOthers, Kept;
    CallServes(batch, collector);
    var whole := batches + [batch];
    if HasOthers(batch, collector) {
      forall t | 0 <= t < |whole|
        ensures t in idx + [|batches|] <==> HasOthers(whole[t], collector)
      {
        assert t < |batches| ==> whole[t] == batches[t];
      }
    } else {
      assert |batches| !in idx;
    }
  }

  lemma {:induction false} NoneServed(collector: SocketAddr)
    ensures ServedAt([], [], collector, []) && Calls([], collector) == []
  {
  }

  lemma {:induction false} CallsServe(batches: seq<Batch>, collector: SocketAddr)
    ensures ServedInOrder(Calls(batches, collector), batches, collector)
  {
    hide ServedAt, HasOthers, Kept;
    if batches == [] {
      NoneServed(collector);
    } else {
      var front, last := batches[..|batches| - 1], batches[|batches| - 1];
      CallsServe(front, collector);
      var idx: seq<nat> :| ServedAt(Calls(front, collector), front, collector, idx);
      ServedNext(Calls(front, collector), front, collector, idx, last);
      CallServes(last, collector);
      assert batches == front + [last];
      ConcatEmpty(Calls(front, collector));
    }
  }

  method RunFlush(exporter: Exporter, call: FlushCall, outcome: nat -> Option<IoError>)
    requires exporter.Valid()
    modifies exporter
    ensures exporter.Valid()
    ensures exporter.history == old(exporter.history) + CallIfAny(call)
  {
    if call.flows == [] {
      return;
    }
    var _ := exporter.Flush(call.flows, call.decidedAt, call.recordedAt, call.nowUnix, outcome);
  }

  /** The receive loop, for as many maps as arrive; `outcome(i)` gives the socket's answers during the i-th. A
      failed flush does not stop it. */
  method ReceiveLoop(exporter: Exporter, collector: SocketAddr, batches: seq<Batch>,
                     outcome: nat -> nat -> Option<IoError>)
    requires exporter.Valid()
    modifies exporter
    ensures exporter.Valid()
    ensures exporter.history == old(exporter.history) + Calls(batches, collector)
    ensures ServedInOrder(exporter.history[|old(exporter.history)|..], batches, collector)
  {
    hide CallIfAny, ServedInOrder;
    for i := 0 to |batches|
      invariant exporter.Valid()
      invariant exporter.history == old(exporter.history) + Calls(batches[..i], collector)
    {
      var call := batches[i].Call(collector);
      assert batches[..i + 1][..i] == batches[..i];
      ConcatAssoc(old(exporter.history), Calls(batches[..i], collector), CallIfAny(call));
      RunFlush(exporter, call, outcome(i));
    }
    assert batches[..|batches|] == batches;
    CallsServe(batches, collector);
    assert exporter.history[|old(exporter.history)|..] == Calls(batches, collector);
  }
}
