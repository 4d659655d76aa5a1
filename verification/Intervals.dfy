/** A history of recorded packets and drains, and the intervals the drains divide it into. */
module Intervals {
  import opened Basics
  import opened Flows
  import opened FlowTables

  datatype Event = Recorded(packet: Flow) | Drained

  /** The packets recorded since the last drain. */
  function Open(events: seq<Event>): seq<Flow> {
    if events == [] then []
    else
      match events[|events| - 1]
      case Recorded(p) => Open(events[..|events| - 1]) + [p]
      case Drained => []
  }

  /** The packets of each interval from one drain to the next. */
  function Closed(events: seq<Event>): seq<seq<Flow>> {
    if events == [] then []
    else
      var before := events[..|events| - 1];
      if events[|events| - 1].Drained? then Closed(before) + [Open(before)] else Closed(before)
  }

  /** All packets recorded. */
  function Log(events: seq<Event>): seq<Flow> {
    if events == [] then []
    else
      match events[|events| - 1]
      case Recorded(p) => Log(events[..|events| - 1]) + [p]
      case Drained => Log(events[..|events| - 1])
  }

  lemma {:induction false} EventStep(events: seq<Event>, e: Event)
    ensures Open(events + [e]) == if e.Drained? then [] else Open(events) + [e.packet]
    ensures Closed(events + [e]) == if e.Drained? then Closed(events) + [Open(events)] else Closed(events)
    ensures Log(events + [e]) == if e.Drained? then Log(events) else Log(events) + [e.packet]
  {
    ConcatFront(events, [e]);
    assert [e][..0] == [];
    ConcatEmpty(events);
  }

  /** The maps drained: one fold for each interval. */
  function FoldAll(intervals: seq<seq<Flow>>): (r: seq<Table>)
    ensures |r| == |intervals|
  {
    seq(|intervals|, i requires 0 <= i < |intervals| => Fold(intervals[i]))
  }

  lemma {:induction false} FoldAllSnoc(intervals: seq<seq<Flow>>, last: seq<Flow>)
    ensures FoldAll(intervals + [last]) == FoldAll(intervals) + [Fold(last)]
  {
    hide Fold;
  }
}
