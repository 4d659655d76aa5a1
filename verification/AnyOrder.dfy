/** The encoder's v4-then-v6 packing against packings that put the records in any order and mix the families
    freely: when is it still the fewest datagrams? */
module AnyOrder {
  import opened Basics
  import opened Encoder
  import opened Flows
  import opened Packing

  // ---- What a number of messages can carry ------------------------------------------------------------

  /** The most v6 records a message has room for beside `x` v4 records. */
  function RoomForV6(mtu: u16, x: nat, template: bool): nat
    requires ChunkLength(Chunk(x, 0), template) <= mtu
  {
    TakeV6(mtu, U16_MAX, template, x)
  }

  lemma {:induction false} RoomIsMaximal(mtu: u16, x: nat, y: nat, template: bool)
    requires ChunkLength(Chunk(x, 0), template) <= mtu
    ensures y <= RoomForV6(mtu, x, template) <==> ChunkLength(Chunk(x, y), template) <= mtu
  {
    if y <= U16_MAX {
      TakeV6IsMaximal(mtu, U16_MAX, template, x, y);
    }
  }

  /** The most v6 records that `n` messages can carry beside `a` v4 records, however mixed; -1 if they cannot even
      carry the v4 records. */
  function MostV6(mtu: u16, n: nat, a: nat, template: bool): int
    decreases n, 2, 0
  {
    if n == 0 then (if a == 0 then 0 else -1) else BestOpening(mtu, n, a, template, a)
  }

  /** The same, with at most `x` v4 records in the first message. */
  function BestOpening(mtu: u16, n: nat, a: nat, template: bool, x: nat): int
    requires n > 0 && x <= a
    decreases n, 1, x
  {
    var here := WithOpening(mtu, n, a, template, x);
    if x == 0 then here else Max(here, BestOpening(mtu, n, a, template, x - 1))
  }

  /** The same, with exactly `x` v4 records in the first message. */
  function WithOpening(mtu: u16, n: nat, a: nat, template: bool, x: nat): int
    requires n > 0 && x <= a
    decreases n, 0, 0
  {
    if ChunkLength(Chunk(x, 0), template) > mtu || MostV6(mtu, n - 1, a - x, false) < 0 then -1
    else RoomForV6(mtu, x, template) + MostV6(mtu, n - 1, a - x, false)
  }

  lemma {:induction false} OpeningIsAtMostBest(mtu: u16, n: nat, a: nat, template: bool, x: nat, y: nat)
    requires n > 0 && y <= x <= a
    ensures WithOpening(mtu, n, a, template, y) <= BestOpening(mtu, n, a, template, x)
    decreases x
  {
    hide WithOpening;
    if y == x {
    } else {
      OpeningIsAtMostBest(mtu, n, a, template, x - 1, y);
    }
  }

  lemma {:induction false} SomeOpeningIsBest(mtu: u16, n: nat, a: nat, template: bool, x: nat) returns (y: nat)
    requires n > 0 && x <= a
    ensures y <= x && WithOpening(mtu, n, a, template, y) == BestOpening(mtu, n, a, template, x)
    decreases x
  {
    hide WithOpening;
    if x == 0 || WithOpening(mtu, n, a, template, x) >= BestOpening(mtu, n, a, template, x - 1) {
      y := x;
    } else {
      y := SomeOpeningIsBest(mtu, n, a, template, x - 1);
    }
  }

  lemma {:induction false} EmptyFits(mtu: u16, template: bool)
    requires MtuHolds(mtu)
    ensures ChunkLength(Chunk(0, 0), template) <= mtu && Fits(mtu, [], false)
  {
  }

  /** A first chunk within the MTU adds at most its room to what the other messages can carry. */
  lemma {:induction false} OpeningCarries(mtu: u16, n: nat, a: nat, template: bool, c: Chunk)
    requires n > 0 && c.v4 <= a && ChunkLength(c, template) <= mtu
    requires MostV6(mtu, n - 1, a - c.v4, false) >= 0
    ensures c.v6 + MostV6(mtu, n - 1, a - c.v4, false) <= WithOpening(mtu, n, a, template, c.v4)
  {
    hide MostV6, RoomForV6;
    RoomIsMaximal(mtu, c.v4, c.v6, template);
  }

  /** No `n` messages carry more. */
  lemma {:induction false} NoPlanCarriesMore(mtu: u16, n: nat, template: bool, other: seq<Chunk>)
    requires MtuHolds(mtu) && |other| <= n && Fits(mtu, other, template)
    ensures SumV6(other) <= MostV6(mtu, n, SumV4(other), template)
  {
    hide BestOpening, WithOpening, ChunkLength, RoomForV6, Fits;
    if n == 0 {
    } else {
      var c, rest := Chunk(0, 0), other;
      if other == [] {
        EmptyFits(mtu, template);
      } else {
        c, rest := other[0], other[1..];
        HeadFits(mtu, other, template);
        TailFits(mtu, other, template);
      }
      NoPlanCarriesMore(mtu, n - 1, false, rest);
      OpeningCarries(mtu, n, SumV4(other), template, c);
      OpeningIsAtMostBest(mtu, n, SumV4(other), template, SumV4(other), c.v4);
    }
  }

  lemma {:induction false} NothingFits(mtu: u16, template: bool)
    ensures Fits(mtu, [], template)
  {
  }

  lemma {:induction false} FitsCons(mtu: u16, c: Chunk, rest: seq<Chunk>, template: bool)
    requires Fits(mtu, rest, false) && ChunkLength(c, template) <= mtu
    ensures Fits(mtu, [c] + rest, template)
  {
    hide ChunkLength;
    var plan := [c] + rest;
    forall i | 0 <= i < |plan|
      ensures ChunkLength(plan[i], template && i == 0) <= mtu
    {
      if i > 0 {
        assert plan[i] == rest[i - 1] && ChunkLength(rest[i - 1], false && i - 1 == 0) <= mtu;
      }
    }
  }

  /** And some `n` messages carry as many, or any lesser number. */
  lemma {:induction false} SomePlanCarries(mtu: u16, n: nat, a: nat, b: nat, template: bool)
    returns (plan: seq<Chunk>)
    requires b <= MostV6(mtu, n, a, template)
    ensures |plan| == n && SumV4(plan) == a && SumV6(plan) == b && Fits(mtu, plan, template)
  {
    hide BestOpening, RoomForV6, ChunkLength, Fits;
    if n == 0 {
      plan := [];
      assert Fits(mtu, [], template) by { NothingFits(mtu, template); }
    } else {
      var x := SomeOpeningIsBest(mtu, n, a, template, a);
      var y := Min(b, RoomForV6(mtu, x, template));
      RoomIsMaximal(mtu, x, y, template);
      var rest := SomePlanCarries(mtu, n - 1, a - x, b - y, false);
      plan := [Chunk(x, y)] + rest;
      FitsCons(mtu, Chunk(x, y), rest, template);
      assert plan[1..] == rest;
    }
  }

  // ---- Batches ----------------------------------------------------------------------------------------

  /** Messages within the MTU that carry the records of the batch, in any order, with the template set in the
      first when it was requested. */
  ghost predicate Carries(mtu: u16, flows: seq<Flow>, template: bool, other: seq<Message>) {
    && multiset(AllRecordsV4(other)) == multiset(V4Of(flows))
    && multiset(AllRecordsV6(other)) == multiset(V6Of(flows))
    && (forall i :: 0 <= i < |other| ==> other[i].Length() <= mtu)
    && (template && other != [] ==> other[0].template)
  }

  lemma {:induction false} ChunksOfCarrier(mtu: u16, flows: seq<Flow>, template: bool, other: seq<Message>)
    requires Carries(mtu, flows, template, other)
    ensures var plan := Chunks(other);
            SumV4(plan) == |V4Of(flows)| && SumV6(plan) == |V6Of(flows)| && Fits(mtu, plan, template)
  {
    var plan := Chunks(other);
    assert |AllRecordsV4(other)| == |multiset(AllRecordsV4(other))| == |multiset(V4Of(flows))|;
    assert |AllRecordsV6(other)| == |multiset(AllRecordsV6(other))| == |multiset(V6Of(flows))|;
    forall i | 0 <= i < |plan|
      ensures ChunkLength(plan[i], template && i == 0) <= mtu
    {
      assert other[i].Length() <= mtu;
    }
  }

  lemma {:induction false} CutCarries(mtu: u16, flows: seq<Flow>, template: bool, plan: seq<Chunk>, sequence: u32,
                                      stamp: Stamp)
    requires SumV4(plan) == |V4Of(flows)| && SumV6(plan) == |V6Of(flows)| && Fits(mtu, plan, template)
    ensures Carries(mtu, flows, template, Cut(plan, V4Of(flows), V6Of(flows), sequence, template, stamp))
  {
    hide Cut, V4Of, V6Of;
    var other := Cut(plan, V4Of(flows), V6Of(flows), sequence, template, stamp);
    CutKeepsRecords(plan, V4Of(flows), V6Of(flows), sequence, template, stamp);
    forall i | 0 <= i < |other|
      ensures other[i].Length() <= mtu && other[i].template == (template && i == 0)
    {
      CutMessageAt(plan, V4Of(flows), V6Of(flows), sequence, template, stamp, i);
      assert ChunkLength(plan[i], template && i == 0) <= mtu;
    }
  }

  /** Whatever the order of the records, no messages carrying the batch are fewer. */
  ghost predicate FewestOfAll(mtu: u16, flows: seq<Flow>, template: bool, count: nat) {
    forall other: seq<Message> :: Carries(mtu, flows, template, other) ==> count <= |other|
  }

  lemma {:induction false} NoneIsFewest(mtu: u16, flows: seq<Flow>, template: bool)
    ensures FewestOfAll(mtu, flows, template, 0)
  {
  }

  lemma {:induction false} FewerCarryIt(mtu: u16, flows: seq<Flow>, template: bool, n: nat)
    requires |V6Of(flows)| <= MostV6(mtu, n, |V4Of(flows)|, template)
    ensures !FewestOfAll(mtu, flows, template, n + 1)
  {
    hide MostV6, Carries, V4Of, V6Of, Cut, Fits;
    var plan := SomePlanCarries(mtu, n, |V4Of(flows)|, |V6Of(flows)|, template);
    var other := Cut(plan, V4Of(flows), V6Of(flows), 0, template, Stamp(0, 0));
    CutCarries(mtu, flows, template, plan, 0, Stamp(0, 0));
    assert |other| < n + 1;
  }

  lemma {:induction false} NoFewerCarryIt(mtu: u16, flows: seq<Flow>, template: bool, n: nat)
    requires MtuHolds(mtu) && MostV6(mtu, n, |V4Of(flows)|, template) < |V6Of(flows)|
    ensures FewestOfAll(mtu, flows, template, n + 1)
  {
    hide MostV6, Carries, V4Of, V6Of, Fits;
    forall other: seq<Message> | Carries(mtu, flows, template, other)
      ensures n + 1 <= |other|
    {
      ChunksOfCarrier(mtu, flows, template, other);
      if |other| <= n {
        NoPlanCarriesMore(mtu, n, template, Chunks(other));
      }
    }
  }

  /** The encoder's datagrams are as many as the two record counts say, and the fewest in any order if and only if
      one less could not carry that many v6 records beside that many v4 records. */
  lemma {:induction false} FewestInAnyOrder(mtu: u16, flows: seq<Flow>, sequence: u32, template: bool, stamp: Stamp)
    requires MtuHolds(mtu)
    ensures var a, b := |V4Of(flows)|, |V6Of(flows)|;
            var count := BatchCount(mtu, a, b, template);
            && |Messages(mtu, flows, sequence, template, stamp)| == count
            && (FewestOfAll(mtu, flows, template, count)
                <==> count == 0 || MostV6(mtu, count - 1, a, template) < b)
  {
    hide BatchCount, Messages, MostV6, Carries, FewestOfAll, V4Of, V6Of;
    BatchIsCounted(mtu, flows, sequence, template, stamp);
    var a, b := |V4Of(flows)|, |V6Of(flows)|;
    var count := BatchCount(mtu, a, b, template);
    if count == 0 {
      NoneIsFewest(mtu, flows, template);
    } else if b <= MostV6(mtu, count - 1, a, template) {
      FewerCarryIt(mtu, flows, template, count - 1);
    } else {
      NoFewerCarryIt(mtu, flows, template, count - 1);
    }
  }

  lemma {:induction false} ZeroSumV6(plan: seq<Chunk>)
    requires SumV6(plan) == 0
    ensures forall j :: 0 <= j < |plan| ==> plan[j].v6 == 0
  {
    if plan == [] {
    } else {
      ZeroSumV6(plan[1..]);
      assert forall j :: 0 < j < |plan| ==> plan[j] == plan[1..][j - 1];
    }
  }

  /** In particular the encoder's datagrams are the fewest in any order for every batch of a single family. */
  lemma {:induction false} SingleFamilyIsFewest(mtu: u16, flows: seq<Flow>, sequence: u32, template: bool,
                                                stamp: Stamp)
    requires MtuHolds(mtu)
    requires V4Of(flows) == [] || V6Of(flows) == []
    ensures FewestOfAll(mtu, flows, template, |Messages(mtu, flows, sequence, template, stamp)|)
  {
    hide Plan, Fits, Carries;
    forall other: seq<Message> | Carries(mtu, flows, template, other)
      ensures |Messages(mtu, flows, sequence, template, stamp)| <= |other|
    {
      ChunksOfCarrier(mtu, flows, template, other);
      if V4Of(flows) == [] {
        ZeroSum(Chunks(other));
      } else {
        ZeroSumV6(Chunks(other));
      }
      GreedyNeedsNoMore(mtu, |V4Of(flows)|, |V6Of(flows)|, template, Chunks(other));
    }
  }

  /** For mixed batches it can fail: every batch of 4 v4 and 24 v6 flows fits in two datagrams, and the encoder
      uses more. */
  lemma {:induction false} MixedOrderCanBeatGreedy(flows: seq<Flow>, sequence: u32, stamp: Stamp)
    returns (other: seq<Message>)
    requires |V4Of(flows)| == 4 && |V6Of(flows)| == 24
    ensures Carries(1200, flows, false, other)
    ensures |other| == 2 < |Messages(1200, flows, sequence, false, stamp)|
  {
    hide Plan, Cut, V4Of, V6Of, Carries;
    var plan := [Chunk(2, 12), Chunk(2, 12)];
    assert plan[1..] == [Chunk(2, 12)] && [Chunk(2, 12)][1..] == [];
    CutCarries(1200, flows, false, plan, sequence, stamp);
    other := Cut(plan, V4Of(flows), V6Of(flows), sequence, false, stamp);
    PlanStep(1200, 4, 24, false, 4, 10);
    PlanStep(1200, 0, 14, false, 0, 13);
    PlanStep(1200, 0, 1, false, 0, 1);
  }
}
