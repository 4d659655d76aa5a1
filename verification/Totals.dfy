/** Counter totals over logs and maps, for the flows whose key a selector picks. */
module Totals {
  import opened Basics
  import opened Flows
  import opened FlowTables

  function EntryTotal(c: Counter, m: Table, sel: Selector, k: FlowKey): nat {
    if k in m && sel(k) then c.Of(m[k]) else 0
  }

  /** The total over the entries of a map, in whatever order they are taken. */
  ghost function MapTotal(c: Counter, m: Table, sel: Selector): nat
    decreases |m|
  {
    if m == map[] then 0
    else
      var k :| k in m;
      EntryTotal(c, m, sel, k) + MapTotal(c, m - {k}, sel)
  }

  lemma {:induction false} SomeEntry(c: Counter, m: Table, sel: Selector) returns (j: FlowKey)
    requires m != map[]
    ensures j in m && MapTotal(c, m, sel) == EntryTotal(c, m, sel, j) + MapTotal(c, m - {j}, sel)
  {
    j :| j in m && MapTotal(c, m, sel) == EntryTotal(c, m, sel, j) + MapTotal(c, m - {j}, sel);
  }

  /** The order does not matter: any entry may be split off. */
  lemma {:induction false} MapTotalSplit(c: Counter, m: Table, sel: Selector, k: FlowKey)
    ensures MapTotal(c, m, sel) == EntryTotal(c, m, sel, k) + MapTotal(c, m - {k}, sel)
    decreases |m|
  {
    hide MapTotal;
    if k !in m {
      assert m - {k} == m;
    } else {
      var j := SomeEntry(c, m, sel);
      if j != k {
        var mj, mk := m - {j}, m - {k};
        assert |mj| < |m| && |mk| < |m| by {
          assert mj.Keys == m.Keys - {j} && mk.Keys == m.Keys - {k};
        }
        MapTotalSplit(c, mj, sel, k);
        MapTotalSplit(c, mk, sel, j);
        assert mj - {k} == mk - {j};
        assert EntryTotal(c, mj, sel, k) == EntryTotal(c, m, sel, k);
        assert EntryTotal(c, mk, sel, j) == EntryTotal(c, m, sel, j);
      }
    }
  }

  lemma {:induction false} MapTotalUpdate(c: Counter, m: Table, sel: Selector, k: FlowKey, v: FlowVal)
    ensures MapTotal(c, m[k := v], sel) + EntryTotal(c, m, sel, k)
         == MapTotal(c, m, sel) + if sel(k) then c.Of(v) else 0
  {
    MapTotalSplit(c, m, sel, k);
    MapTotalSplit(c, m[k := v], sel, k);
    assert m[k := v] - {k} == m - {k};
  }

  // ---- What aggregation does to a total ---------------------------------------------------------------

  /** No selected key's counter passes 2^64 - 1 within the log. */
  ghost predicate NoSaturation(c: Counter, log: seq<Flow>, sel: Selector) {
    forall k: FlowKey :: sel(k) ==> Total(c, log, OnlyKey(k)) <= 0xFFFF_FFFF_FFFF_FFFF
  }

  lemma {:induction false} EntryIsCappedTotal(c: Counter, log: seq<Flow>, k: FlowKey)
    ensures (if k in Fold(log) then c.Of(Fold(log)[k]) else 0) == Min(0xFFFF_FFFF_FFFF_FFFF, Total(c, log, OnlyKey(k)))
  {
    hide IsEarliest, IsLatest, IsFirstTold, Fold, Total;
    TableSummarisesLog(log, k);
    Unseen(log, k);
  }

  lemma {:induction false} EmptyTotals(c: Counter, sel: Selector)
    ensures Fold([]) == map[] && MapTotal(c, map[], sel) == 0
    ensures NoSaturation(c, [], sel)
  {
  }

  lemma {:induction false} NoSaturationStep(c: Counter, log: seq<Flow>, sel: Selector)
    requires log != []
    ensures var p := log[|log| - 1];
            NoSaturation(c, log, sel)
            <==> && NoSaturation(c, log[..|log| - 1], sel)
                 && (sel(p.key) ==> Total(c, log, OnlyKey(p.key)) <= 0xFFFF_FFFF_FFFF_FFFF)
    ensures var front, p := log[..|log| - 1], log[|log| - 1];
            NoSaturation(c, front, sel) && sel(p.key) ==> Total(c, front, OnlyKey(p.key)) <= 0xFFFF_FFFF_FFFF_FFFF
  {
    var front, p := log[..|log| - 1], log[|log| - 1];
    assert forall k: FlowKey :: Total(c, front, OnlyKey(k)) <= Total(c, log, OnlyKey(k));
    assert forall k: FlowKey :: k != p.key ==> Total(c, front, OnlyKey(k)) == Total(c, log, OnlyKey(k));
  }

  /** Aggregating packets into a table never adds to a total, and keeps it exactly when nothing saturates. */
  lemma {:induction false} AggregationKeepsTotals(c: Counter, log: seq<Flow>, sel: Selector)
    ensures MapTotal(c, Fold(log), sel) <= Total(c, log, sel)
    ensures MapTotal(c, Fold(log), sel) == Total(c, log, sel) <==> NoSaturation(c, log, sel)
  {
    hide MapTotal, NoSaturation;
    if log == [] {
      EmptyTotals(c, sel);
    } else {
      var n := |log| - 1;
      var front, p := log[..n], log[n];
      var k := p.key;
      AggregationKeepsTotals(c, front, sel);
      EntryIsCappedTotal(c, front, k);
      EntryIsCappedTotal(c, log, k);
      MapTotalUpdate(c, Fold(front), sel, k, Fold(log)[k]);
      NoSaturationStep(c, log, sel);
    }
  }

  // ---- A single key -----------------------------------------------------------------------------------

  lemma {:induction false} NothingSelected(c: Counter, m: Table, sel: Selector)
    requires forall k :: k in m ==> !sel(k)
    ensures MapTotal(c, m, sel) == 0
    decreases |m|
  {
    hide MapTotal;
    if m == map[] {
      EmptyTotals(c, sel);
    } else {
      var k :| k in m;
      MapTotalSplit(c, m, sel, k);
      assert (m - {k}).Keys == m.Keys - {k};
      NothingSelected(c, m - {k}, sel);
    }
  }

  lemma {:induction false} MapTotalOfKey(c: Counter, m: Table, key: FlowKey)
    ensures MapTotal(c, m, OnlyKey(key)) == EntryTotal(c, m, OnlyKey(key), key)
  {
    hide MapTotal;
    MapTotalSplit(c, m, OnlyKey(key), key);
    NothingSelected(c, m - {key}, OnlyKey(key));
  }
}
