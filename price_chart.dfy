/**
 * The price chart of a position: the merge of trades into the fetched price series,
 * the two closest-index searches, the visible index range and the zoom controls.
 * Dates are seconds (`real`); `timeIntervalSince` is exact subtraction.
 */
module PriceCharts {
  import opened Wrappers
  import opened PriceModel
  import opened DateRanges

  /** `abs(t.timeIntervalSince(date))`. */
  function Distance(t: real, date: real): (d: real)
    ensures d >= 0.0 && (d == t - date || d == date - t)
  {
    if t < date then date - t else t - date
  }

  // ---------------------------------------------------------------------------
  // findClosestPriceDataIndex(prices:to:)
  // ---------------------------------------------------------------------------

  /** `min(by:)` over the indices of `prices`, continued from index `i` with `best` the
      minimum so far: the running result is replaced only by a strictly closer one. */
  function ClosestPriceFrom(prices: seq<PriceData>, date: real, best: nat, i: nat): (r: nat)
    requires best < i <= |prices|
    requires forall j :: 0 <= j < i ==>
      Distance(prices[best].timeSecond, date) <= Distance(prices[j].timeSecond, date)
    requires forall j :: 0 <= j < best ==>
      Distance(prices[j].timeSecond, date) > Distance(prices[best].timeSecond, date)
    ensures r < |prices|
    ensures forall j :: 0 <= j < |prices| ==>
      Distance(prices[r].timeSecond, date) <= Distance(prices[j].timeSecond, date)
    ensures forall j :: 0 <= j < r ==>
      Distance(prices[j].timeSecond, date) > Distance(prices[r].timeSecond, date)
    decreases |prices| - i
  {
    if i == |prices| then best
    else if Distance(prices[i].timeSecond, date) < Distance(prices[best].timeSecond, date) then
      ClosestPriceFrom(prices, date, i, i + 1)
    else
      ClosestPriceFrom(prices, date, best, i + 1)
  }

  /** `findClosestPriceDataIndex(prices:to:)`: nil exactly for no prices, otherwise the
      first index whose time is nearest to `date`. */
  function ClosestPriceIndex(prices: seq<PriceData>, date: real): (r: Option<int>)
    ensures r.None? <==> prices == []
    ensures r.Some? ==> 0 <= r.value < |prices|
    ensures r.Some? ==> forall j :: 0 <= j < |prices| ==>
      Distance(prices[r.value].timeSecond, date) <= Distance(prices[j].timeSecond, date)
    ensures r.Some? ==> forall j :: 0 <= j < r.value ==>
      Distance(prices[j].timeSecond, date) > Distance(prices[r.value].timeSecond, date)
  {
    if prices == [] then None else Some(ClosestPriceFrom(prices, date, 0, 1))
  }

  // ---------------------------------------------------------------------------
  // findClosestPriceDataIndex(to:)
  // ---------------------------------------------------------------------------

  /** The comparator of `findClosestPriceDataIndex(to:)`: false whenever either entry
      is a trade. */
  predicate EntryCloser(a: PriceOrTrade, b: PriceOrTrade, date: real) {
    a.Price? && b.Price? && Distance(a.price.timeSecond, date) < Distance(b.price.timeSecond, date)
  }

  function ClosestEntryFrom(entries: seq<PriceOrTrade>, date: real, best: nat, i: nat): (r: nat)
    requires best < i <= |entries|
    requires entries[0].Trade? ==> best == 0
    requires entries[0].Price? ==> entries[best].Price?
    requires forall j :: 0 <= j < i && entries[j].Price? && entries[best].Price? ==>
      Distance(entries[best].price.timeSecond, date) <= Distance(entries[j].price.timeSecond, date)
    requires forall j :: 0 <= j < best && entries[j].Price? && entries[best].Price? ==>
      Distance(entries[j].price.timeSecond, date) > Distance(entries[best].price.timeSecond, date)
    ensures r < |entries|
    ensures entries[0].Trade? ==> r == 0
    ensures entries[0].Price? ==> entries[r].Price?
    ensures forall j :: 0 <= j < |entries| && entries[j].Price? && entries[r].Price? ==>
      Distance(entries[r].price.timeSecond, date) <= Distance(entries[j].price.timeSecond, date)
    ensures forall j :: 0 <= j < r && entries[j].Price? && entries[r].Price? ==>
      Distance(entries[j].price.timeSecond, date) > Distance(entries[r].price.timeSecond, date)
    decreases |entries| - i
  {
    if i == |entries| then best
    else if EntryCloser(entries[i], entries[best], date) then ClosestEntryFrom(entries, date, i, i + 1)
    else ClosestEntryFrom(entries, date, best, i + 1)
  }

  /** `findClosestPriceDataIndex(to:)` over the merged entries: nil exactly when there
      are none; a trade in front is never displaced; otherwise the first price nearest
      to `date`. */
  function ClosestEntryIndex(entries: seq<PriceOrTrade>, date: real): (r: Option<int>)
    ensures r.None? <==> entries == []
    ensures r.Some? ==> 0 <= r.value < |entries|
    ensures entries != [] && entries[0].Trade? ==> r == Some(0)
    ensures entries != [] && entries[0].Price? ==> (
      && entries[r.value].Price?
      && (forall j :: 0 <= j < |entries| && entries[j].Price? ==>
            Distance(entries[r.value].price.timeSecond, date) <= Distance(entries[j].price.timeSecond, date))
      && (forall j :: 0 <= j < r.value && entries[j].Price? ==>
            Distance(entries[j].price.timeSecond, date) > Distance(entries[r.value].price.timeSecond, date)))
  {
    if entries == [] then None else Some(ClosestEntryFrom(entries, date, 0, 1))
  }

  // ---------------------------------------------------------------------------
  // The merge in fetchPriceData
  // ---------------------------------------------------------------------------

  /** Projections of the merged list onto its prices and its trades. */
  function PricesOf(s: seq<PriceOrTrade>): seq<PriceData> {
    if s == [] then []
    else PricesOf(s[..|s| - 1]) + (if s[|s| - 1].Price? then [s[|s| - 1].price] else [])
  }

  function TradesOf(s: seq<PriceOrTrade>): seq<PositionTradeData> {
    if s == [] then []
    else TradesOf(s[..|s| - 1]) + (if s[|s| - 1].Trade? then [s[|s| - 1].trade] else [])
  }

  /** The last entry of `b` is the last entry of `a + b`. */
  lemma DropLastOfAppend(a: seq<PriceOrTrade>, b: seq<PriceOrTrade>)
    requires b != []
    ensures (a + b)[..|a + b| - 1] == a + b[..|b| - 1]
    ensures (a + b)[|a + b| - 1] == b[|b| - 1]
  {
  }

  lemma {:induction false} PricesAppend(a: seq<PriceOrTrade>, b: seq<PriceOrTrade>)
    ensures PricesOf(a + b) == PricesOf(a) + PricesOf(b)
    decreases |b|
  {
    if b == [] {
      assert a + b == a;
    } else {
      var c := b[..|b| - 1];
      var last := if b[|b| - 1].Price? then [b[|b| - 1].price] else [];
      DropLastOfAppend(a, b);
      PricesAppend(a, c);
      calc {
        PricesOf(a + b);
        PricesOf(a + c) + last;
        (PricesOf(a) + PricesOf(c)) + last;
        PricesOf(a) + (PricesOf(c) + last);
        PricesOf(a) + PricesOf(b);
      }
    }
  }

  lemma {:induction false} TradesAppend(a: seq<PriceOrTrade>, b: seq<PriceOrTrade>)
    ensures TradesOf(a + b) == TradesOf(a) + TradesOf(b)
    decreases |b|
  {
    if b == [] {
      assert a + b == a;
    } else {
      var c := b[..|b| - 1];
      var last := if b[|b| - 1].Trade? then [b[|b| - 1].trade] else [];
      DropLastOfAppend(a, b);
      TradesAppend(a, c);
      calc {
        TradesOf(a + b);
        TradesOf(a + c) + last;
        (TradesOf(a) + TradesOf(c)) + last;
        TradesOf(a) + (TradesOf(c) + last);
        TradesOf(a) + TradesOf(b);
      }
    }
  }

  /** `tradesIndexes`: the closest price index of each trade's confirmation time. */
  function TradeIndexes(data: seq<PriceData>, trades: seq<PositionTradeData>): (tis: seq<Option<int>>)
    ensures |tis| == |trades|
    ensures forall i :: 0 <= i < |tis| ==> tis[i] == ClosestPriceIndex(data, trades[i].confirmTime)
  {
    seq(|trades|, i requires 0 <= i < |trades| => ClosestPriceIndex(data, trades[i].confirmTime))
  }

  /** The inner `while`: from `cur`, skips every trade whose index is `index`. */
  function Advance(tis: seq<Option<int>>, cur: nat, index: int): (r: nat)
    requires cur <= |tis|
    ensures cur <= r <= |tis|
    ensures forall j :: cur <= j < r ==> tis[j] == Some(index)
    ensures r < |tis| ==> tis[r] != Some(index)
    decreases |tis| - cur
  {
    if cur < |tis| && tis[cur] == Some(index) then Advance(tis, cur + 1, index) else cur
  }

  /** `trades[lo..<hi]`, each as a `.trade` entry. */
  function TradeEntries(trades: seq<PositionTradeData>, lo: nat, hi: nat): (es: seq<PriceOrTrade>)
    requires lo <= hi <= |trades|
    ensures |es| == hi - lo
    ensures forall j :: 0 <= j < |es| ==> es[j] == Trade(trades[lo + j])
  {
    seq(hi - lo, j requires 0 <= j < hi - lo => Trade(trades[lo + j]))
  }

  lemma TradeEntriesTake(trades: seq<PositionTradeData>, lo: nat, k: nat, hi: nat)
    requires lo <= k <= hi <= |trades|
    ensures TradeEntries(trades, lo, hi)[..k - lo] == TradeEntries(trades, lo, k)
  {
  }

  lemma TradeEntriesExtend(trades: seq<PositionTradeData>, lo: nat, hi: nat)
    requires lo <= hi < |trades|
    ensures TradeEntries(trades, lo, hi + 1) == TradeEntries(trades, lo, hi) + [Trade(trades[hi])]
  {
  }

  lemma {:induction false} TradeEntriesProjections(trades: seq<PositionTradeData>, lo: nat, hi: nat)
    requires lo <= hi <= |trades|
    ensures PricesOf(TradeEntries(trades, lo, hi)) == []
    ensures TradesOf(TradeEntries(trades, lo, hi)) == trades[lo..hi]
    decreases hi
  {
    if lo < hi {
      TradeEntriesProjections(trades, lo, hi - 1);
      TradeEntriesTake(trades, lo, hi - 1, hi);
      assert trades[lo..hi] == trades[lo..hi - 1] + [trades[hi - 1]];
    }
  }

  /** The merged list and `currentTradeIndex` after the first `n` prices. */
  datatype MergeState = MergeState(merged: seq<PriceOrTrade>, next: nat)

  function MergeUpTo(data: seq<PriceData>, trades: seq<PositionTradeData>, tis: seq<Option<int>>, n: nat): (s: MergeState)
    requires n <= |data| && |tis| == |trades|
    ensures s.next <= |trades|
  {
    if n == 0 then MergeState([], 0)
    else
      var prev := MergeUpTo(data, trades, tis, n - 1);
      var next := if Some(n - 1) in tis then Advance(tis, prev.next, n - 1) else prev.next;
      MergeState(prev.merged + TradeEntries(trades, prev.next, next) + [Price(data[n - 1])], next)
  }

  /** What `fetchPriceData` assigns to `priceData` for the fetched `data`. */
  function Merged(data: seq<PriceData>, trades: seq<PositionTradeData>): MergeState {
    MergeUpTo(data, trades, TradeIndexes(data, trades), |data|)
  }

  /** The first `k` trade indexes are all present and in non-decreasing order. */
  predicate InOrder(tis: seq<Option<int>>, k: nat)
    requires k <= |tis|
  {
    && (forall i :: 0 <= i < k ==> tis[i].Some?)
    && (forall i, j :: 0 <= i < j < k ==> tis[i].value <= tis[j].value)
  }

  /** One round of the outer loop: the trades matched to price `n - 1` that are next in
      line, then that price. */
  lemma MergeStep(data: seq<PriceData>, trades: seq<PositionTradeData>, tis: seq<Option<int>>, n': nat, n: nat)
    requires n == n' + 1 && n <= |data| && |tis| == |trades|
    ensures var prev := MergeUpTo(data, trades, tis, n');
      var s := MergeUpTo(data, trades, tis, n);
      && s.next == (if Some(n') in tis then Advance(tis, prev.next, n') else prev.next)
      && prev.next <= s.next
      && s.merged == prev.merged + TradeEntries(trades, prev.next, s.next) + [Price(data[n'])]
      && (forall i :: prev.next <= i < s.next ==> tis[i] == Some(n'))
  {
  }

  /** Appending a run of trades and then a price adds that price to the prices and the
      run to the trades. */
  lemma RoundProjections(m: seq<PriceOrTrade>, es: seq<PriceOrTrade>, p: PriceData)
    requires PricesOf(es) == []
    ensures PricesOf(m + es + [Price(p)]) == PricesOf(m) + [p]
    ensures TradesOf(m + es + [Price(p)]) == TradesOf(m) + TradesOf(es)
  {
    DropLastOfAppend(m + es, [Price(p)]);
    PricesAppend(m, es);
    TradesAppend(m, es);
    assert m + es + [Price(p)] == (m + es) + [Price(p)];
    assert PricesOf(m) + [] == PricesOf(m);
  }

  /** After `n` prices the merged list holds `n` prices and `next` trades: the prices
      are `data[..n]` in order and the trades `trades[..next]` in order. */
  lemma {:induction false} MergeProjections(data: seq<PriceData>, trades: seq<PositionTradeData>, tis: seq<Option<int>>, n: nat)
    requires n <= |data| && |tis| == |trades|
    ensures var s := MergeUpTo(data, trades, tis, n);
      && |s.merged| == n + s.next
      && PricesOf(s.merged) == data[..n]
      && TradesOf(s.merged) == trades[..s.next]
  {
    if n > 0 {
      var n' := n - 1;
      MergeProjections(data, trades, tis, n');
      MergeStep(data, trades, tis, n', n);
      var prev := MergeUpTo(data, trades, tis, n');
      var s := MergeUpTo(data, trades, tis, n);
      MergeProjectionsStep(data, trades, n', prev.merged, prev.next, s.merged, s.next);
    }
  }

  lemma MergeProjectionsStep(data: seq<PriceData>, trades: seq<PositionTradeData>, n': nat,
                              pm: seq<PriceOrTrade>, pk: nat, sm: seq<PriceOrTrade>, sk: nat)
    requires n' < |data| && pk <= sk <= |trades|
    requires sm == pm + TradeEntries(trades, pk, sk) + [Price(data[n'])]
    requires PricesOf(pm) == data[..n'] && TradesOf(pm) == trades[..pk]
    ensures PricesOf(sm) == data[..n' + 1] && TradesOf(sm) == trades[..sk]
  {
    TradeEntriesProjections(trades, pk, sk);
    RoundProjections(pm, TradeEntries(trades, pk, sk), data[n']);
    assert data[..n' + 1] == data[..n'] + [data[n']];
    assert trades[..sk] == trades[..pk] + trades[pk..sk];
  }

  /** Inside one round: the `j`-th trade of the run follows the earlier entries and the
      trades of the run before it, which add no price. */
  lemma RoundTradePosition(m: seq<PriceOrTrade>, trades: seq<PositionTradeData>, lo: nat, hi: nat, p: PriceData, j: nat)
    requires lo + j < hi <= |trades|
    ensures (m + TradeEntries(trades, lo, hi) + [Price(p)])[|m| + j] == Trade(trades[lo + j])
    ensures PricesOf((m + TradeEntries(trades, lo, hi) + [Price(p)])[..|m| + j]) == PricesOf(m)
  {
    RunPrefixHasNoPrice(trades, lo, lo + j, hi);
    PricesOfRunPrefix(m, TradeEntries(trades, lo, hi), [Price(p)], j);
  }

  lemma RunPrefixHasNoPrice(trades: seq<PositionTradeData>, lo: nat, k: nat, hi: nat)
    requires lo <= k <= hi <= |trades|
    ensures PricesOf(TradeEntries(trades, lo, hi)[..k - lo]) == []
  {
    TradeEntriesTake(trades, lo, k, hi);
    TradeEntriesProjections(trades, lo, k);
  }

  lemma PricesOfRunPrefix(m: seq<PriceOrTrade>, es: seq<PriceOrTrade>, tail: seq<PriceOrTrade>, j: nat)
    requires j <= |es| && PricesOf(es[..j]) == []
    ensures PricesOf((m + es + tail)[..|m| + j]) == PricesOf(m)
  {
    PrefixThroughRun(m, es, tail, j);
    PricesAppend(m, es[..j]);
    assert PricesOf(m) + [] == PricesOf(m);
  }

  lemma PrefixThroughRun(m: seq<PriceOrTrade>, es: seq<PriceOrTrade>, tail: seq<PriceOrTrade>, j: nat)
    requires j <= |es|
    ensures (m + es + tail)[..|m| + j] == m + es[..j]
  {
  }

  lemma PrefixOfLonger(a: seq<PriceOrTrade>, b: seq<PriceOrTrade>, c: seq<PriceOrTrade>, q: nat)
    requires q < |a|
    ensures (a + b + c)[..q] == a[..q] && (a + b + c)[q] == a[q]
  {
  }

  /** The trades emitted after `n` prices have matched indexes below `n`, in
      non-decreasing order. */
  lemma {:induction false} MergeInOrder(data: seq<PriceData>, trades: seq<PositionTradeData>, tis: seq<Option<int>>, n: nat)
    requires n <= |data| && |tis| == |trades|
    ensures var k := MergeUpTo(data, trades, tis, n).next;
      InOrder(tis, k) && forall i :: 0 <= i < k ==> 0 <= tis[i].value < n
  {
    if n > 0 {
      var n' := n - 1;
      MergeInOrder(data, trades, tis, n');
      MergeStep(data, trades, tis, n', n);
    }
  }

  /** Trade `i` was matched to price `tis[i]`, one of the first `n`, and sits in `m` at
      position `i + tis[i]`, preceded by exactly the prices `data[..tis[i]]`. */
  predicate Placed(m: seq<PriceOrTrade>, data: seq<PriceData>, trades: seq<PositionTradeData>,
                   tis: seq<Option<int>>, i: int, n: nat)
  {
    && 0 <= i < |tis| && i < |trades| && n <= |data|
    && tis[i].Some? && 0 <= tis[i].value < n
    && i + tis[i].value < |m|
    && m[i + tis[i].value] == Trade(trades[i])
    && PricesOf(m[..i + tis[i].value]) == data[..tis[i].value]
  }

  /** Every emitted trade is placed: the next price after it is the one it was matched to. */
  lemma {:induction false} MergePositions(data: seq<PriceData>, trades: seq<PositionTradeData>, tis: seq<Option<int>>, n: nat)
    requires n <= |data| && |tis| == |trades|
    ensures var s := MergeUpTo(data, trades, tis, n);
      && |s.merged| == n + s.next
      && InOrder(tis, s.next)
      && (forall i :: 0 <= i < s.next ==> Placed(s.merged, data, trades, tis, i, n))
  {
    MergeProjections(data, trades, tis, n);
    MergeInOrder(data, trades, tis, n);
    if n > 0 {
      var n' := n - 1;
      MergePositions(data, trades, tis, n');
      MergeProjections(data, trades, tis, n');
      MergeStep(data, trades, tis, n', n);
      var prev := MergeUpTo(data, trades, tis, n');
      var s := MergeUpTo(data, trades, tis, n);
      MergePositionsStep(data, trades, tis, n', n, prev.merged, prev.next, s.merged, s.next);
    }
  }

  lemma MergePositionsStep(data: seq<PriceData>, trades: seq<PositionTradeData>, tis: seq<Option<int>>, n': nat,
                            n: nat, pm: seq<PriceOrTrade>, pk: nat, sm: seq<PriceOrTrade>, sk: nat)
    requires n == n' + 1 && n' < |data| && pk <= sk <= |trades| && |tis| == |trades|
    requires sm == pm + TradeEntries(trades, pk, sk) + [Price(data[n'])]
    requires |pm| == n' + pk && PricesOf(pm) == data[..n']
    requires forall i :: 0 <= i < pk ==> Placed(pm, data, trades, tis, i, n')
    requires forall i :: pk <= i < sk ==> tis[i] == Some(n')
    ensures forall i :: 0 <= i < sk ==> Placed(sm, data, trades, tis, i, n)
  {
    forall i | 0 <= i < sk
      ensures Placed(sm, data, trades, tis, i, n)
    {
      if i < pk {
        PlacedKept(pm, TradeEntries(trades, pk, sk), data[n'], data, trades, tis, i, n');
      } else {
        PlacedNew(pm, trades, pk, sk, data, tis, n', i);
      }
    }
  }

  /** A trade placed before a round stays placed after it. */
  lemma PlacedKept(pm: seq<PriceOrTrade>, es: seq<PriceOrTrade>, p: PriceData, data: seq<PriceData>,
                   trades: seq<PositionTradeData>, tis: seq<Option<int>>, i: nat, n': nat)
    requires n' < |data| && Placed(pm, data, trades, tis, i, n')
    ensures Placed(pm + es + [Price(p)], data, trades, tis, i, n' + 1)
  {
    PrefixOfLonger(pm, es, [Price(p)], i + tis[i].value);
  }

  /** A trade emitted in round `n'` is placed after that round. */
  lemma PlacedNew(pm: seq<PriceOrTrade>, trades: seq<PositionTradeData>, pk: nat, sk: nat, data: seq<PriceData>,
                  tis: seq<Option<int>>, n': nat, i: nat)
    requires n' < |data| && |pm| == n' + pk && PricesOf(pm) == data[..n']
    requires pk <= i < sk <= |trades| && |tis| == |trades| && tis[i] == Some(n')
    ensures Placed(pm + TradeEntries(trades, pk, sk) + [Price(data[n'])], data, trades, tis, i, n' + 1)
  {
    NewTradePosition(pm, trades, pk, sk, data[n'], n', i);
  }

  lemma NewTradePosition(pm: seq<PriceOrTrade>, trades: seq<PositionTradeData>, pk: nat, sk: nat, p: PriceData,
                          n': nat, i: nat)
    requires |pm| == n' + pk && pk <= i < sk <= |trades|
    ensures (pm + TradeEntries(trades, pk, sk) + [Price(p)])[i + n'] == Trade(trades[i])
    ensures PricesOf((pm + TradeEntries(trades, pk, sk) + [Price(p)])[..i + n']) == PricesOf(pm)
  {
    RoundTradePosition(pm, trades, pk, sk, p, i - pk);
    assert |pm| + (i - pk) == i + n';
  }

  /** When the matched indexes of all trades are in order and within the data, the merge
      emits every trade. */
  lemma {:induction false} MergeEmitsAllWhenInOrder(data: seq<PriceData>, trades: seq<PositionTradeData>,
                                                    tis: seq<Option<int>>, n: nat)
    requires n <= |data| && |tis| == |trades|
    requires InOrder(tis, |tis|) && forall i :: 0 <= i < |tis| ==> 0 <= tis[i].value < |data|
    ensures var k := MergeUpTo(data, trades, tis, n).next;
      (forall i :: 0 <= i < k ==> tis[i].value < n) && (k < |tis| ==> tis[k].value >= n)
  {
    if n > 0 {
      MergeEmitsAllWhenInOrder(data, trades, tis, n - 1);
      var k := MergeUpTo(data, trades, tis, n - 1).next;
      var next := MergeUpTo(data, trades, tis, n).next;
      if k < |tis| && tis[k] == Some(n - 1) {
        assert Some(n - 1) in tis;
        assert next == Advance(tis, k, n - 1);
      } else {
        assert next == k;
      }
    }
  }

  /** The merged list of a fetch: its prices are exactly the fetched data in order, its
      trades are `trades[..k]` for some `k`, its length is `data.count + k`, and with no
      data it is empty. With trade indexes in order every trade is emitted. */
  lemma MergedProperties(data: seq<PriceData>, trades: seq<PositionTradeData>)
    ensures var s := Merged(data, trades);
      && PricesOf(s.merged) == data
      && TradesOf(s.merged) == trades[..s.next]
      && |s.merged| == |data| + s.next <= |data| + |trades|
      && (data == [] ==> s.merged == [])
      && (data != [] && InOrder(TradeIndexes(data, trades), |trades|) ==> s.next == |trades|)
  {
    var tis := TradeIndexes(data, trades);
    MergeProjections(data, trades, tis, |data|);
    assert data[..|data|] == data;
    if data != [] && InOrder(tis, |trades|) {
      assert forall i :: 0 <= i < |tis| ==> 0 <= tis[i].value < |data|;
      MergeEmitsAllWhenInOrder(data, trades, tis, |data|);
    }
  }

  /** Trades whose matched prices are out of order are dropped: the second trade
      matches an earlier price than the first, and only the first is emitted. */
  lemma MergeDropsOutOfOrderTrade(p0: PriceData, p1: PriceData, t0: PositionTradeData, t1: PositionTradeData)
    ensures var s := MergeUpTo([p0, p1], [t0, t1], [Some(1), Some(0)], 2);
      s.next == 1 && s.merged == [Price(p0), Trade(t0), Price(p1)]
  {
    var tis: seq<Option<int>> := [Some(1), Some(0)];
    assert Some(0) in tis && Some(1) in tis;
    assert MergeUpTo([p0, p1], [t0, t1], tis, 1) == MergeState([Price(p0)], 0);
  }

  // ---------------------------------------------------------------------------
  // resetZoom helpers
  // ---------------------------------------------------------------------------

  /** `priceData.first(where: { $0.price?.timeSecond != nil })?.price?.timeSecond`. */
  function FirstPriceTime(entries: seq<PriceOrTrade>): (t: Option<real>)
    ensures t.None? <==> PricesOf(entries) == []
    ensures t.Some? ==> t.value == PricesOf(entries)[0].timeSecond
  {
    if entries == [] then None
    else
      PricesAppend([entries[0]], entries[1..]);
      assert [entries[0]] + entries[1..] == entries;
      if entries[0].Price? then Some(entries[0].price.timeSecond) else FirstPriceTime(entries[1..])
  }

  /** `priceData.last(where: { $0.price?.timeSecond != nil })?.price?.timeSecond`. */
  function LastPriceTime(entries: seq<PriceOrTrade>): (t: Option<real>)
    ensures t.None? <==> PricesOf(entries) == []
    ensures t.Some? ==> t.value == PricesOf(entries)[|PricesOf(entries)| - 1].timeSecond
  {
    if entries == [] then None
    else if entries[|entries| - 1].Price? then Some(entries[|entries| - 1].price.timeSecond)
    else LastPriceTime(entries[..|entries| - 1])
  }

  /** After a fetch of non-empty data, resetting the zoom spans from the first to the
      last fetched price. */
  lemma ResetZoomSpansFetchedData(data: seq<PriceData>, trades: seq<PositionTradeData>)
    requires data != []
    ensures FirstPriceTime(Merged(data, trades).merged) == Some(data[0].timeSecond)
    ensures LastPriceTime(Merged(data, trades).merged) == Some(data[|data| - 1].timeSecond)
  {
    MergedProperties(data, trades);
  }

  /** The merge loop of `fetchPriceData`: walks the prices and, before each one, emits
      the next trades in line whose closest price index is that price's. */
  method MergeTrades(data: seq<PriceData>, trades: seq<PositionTradeData>, tradesIndexes: seq<Option<int>>)
    returns (mergedData: seq<PriceOrTrade>)
    requires |tradesIndexes| == |trades|
    ensures mergedData == MergeUpTo(data, trades, tradesIndexes, |data|).merged
  {
    mergedData := [];
    var currentTradeIndex: nat := 0;
    for index := 0 to |data|
      invariant MergeUpTo(data, trades, tradesIndexes, index) == MergeState(mergedData, currentTradeIndex)
    {
      MergeStep(data, trades, tradesIndexes, index, index + 1);
      if Some(index) in tradesIndexes {
        ghost var start := currentTradeIndex;
        ghost var before := mergedData;
        while currentTradeIndex < |tradesIndexes| && tradesIndexes[currentTradeIndex] == Some(index)
          invariant start <= currentTradeIndex <= |tradesIndexes|
          invariant Advance(tradesIndexes, currentTradeIndex, index) == Advance(tradesIndexes, start, index)
          invariant mergedData == before + TradeEntries(trades, start, currentTradeIndex)
          decreases |tradesIndexes| - currentTradeIndex
        {
          var trade := trades[currentTradeIndex];
          TradeEntriesExtend(trades, start, currentTradeIndex);
          mergedData := mergedData + [Trade(trade)];
          currentTradeIndex := currentTradeIndex + 1;
        }
      }
      mergedData := mergedData + [Price(data[index])];
    }
  }

  class PriceChart {
    const trades: seq<PositionTradeData>
    var visibleDateRange: Option<DateRange>
    var priceData: seq<PriceOrTrade>
    var scale: real

    constructor (trades: seq<PositionTradeData>)
      ensures this.trades == trades && visibleDateRange == None && priceData == [] && scale == 1.0
    {
      this.trades := trades;
      visibleDateRange := None;
      priceData := [];
      scale := 1.0;
    }

    /** `visibleRange`: nil without a date range or without entries; otherwise the
        indexes of the entries closest to the two bounds, smaller first. */
    function VisibleRange(): (r: Option<(int, int)>)
      reads this
      ensures r.None? <==> visibleDateRange.None? || priceData == []
      ensures r.Some? ==> 0 <= r.value.0 <= r.value.1 < |priceData|
      ensures r.Some? ==>
        var lo := ClosestEntryIndex(priceData, visibleDateRange.value.lower).value;
        var hi := ClosestEntryIndex(priceData, visibleDateRange.value.upper).value;
        {r.value.0, r.value.1} == {lo, hi}
    {
      if visibleDateRange.None? || priceData == [] then None
      else
        var lowerIndex := ClosestEntryIndex(priceData, visibleDateRange.value.lower).GetOr(0);
        var upperIndex := ClosestEntryIndex(priceData, visibleDateRange.value.upper).GetOr(|priceData| - 1);
        Some((if lowerIndex <= upperIndex then lowerIndex else upperIndex,
              if lowerIndex <= upperIndex then upperIndex else lowerIndex))
    }

    /** `fetchPriceData`: `data` is what the query returns for the bucket size
        `interval`; the trades are merged into it. */
    method FetchPriceData(data: seq<PriceData>) returns (interval: PriceDataInterval)
      modifies this
      ensures interval == InitFromScale(scale)
      ensures priceData == Merged(data, trades).merged
      ensures scale == old(scale) && visibleDateRange == old(visibleDateRange)
    {
      interval := InitFromScale(scale);
      var tradesIndexes := TradeIndexes(data, trades);
      priceData := MergeTrades(data, trades, tradesIndexes);
    }

    /** Swift's `firstDate...lastDate` traps when the first price is later than the
        last one. */
    predicate CanResetZoom()
      reads this
    {
      FirstPriceTime(priceData).Some? ==> FirstPriceTime(priceData).value <= LastPriceTime(priceData).value
    }

    /** `resetZoom()`: spans the first to the last price; clears the range when there
        are no entries; leaves it when there are entries but no price. */
    method ResetZoom()
      requires CanResetZoom()
      modifies this
      ensures priceData == old(priceData) && scale == old(scale)
      ensures priceData == [] ==> visibleDateRange == None
      ensures priceData != [] && PricesOf(priceData) == [] ==> visibleDateRange == old(visibleDateRange)
      ensures PricesOf(priceData) != [] ==> (visibleDateRange ==
        Some(Bounds(PricesOf(priceData)[0].timeSecond, PricesOf(priceData)[|PricesOf(priceData)| - 1].timeSecond)))
    {
      if priceData != [] {
        var firstDate := FirstPriceTime(priceData);
        var lastDate := LastPriceTime(priceData);
        if firstDate.Some? && lastDate.Some? {
          visibleDateRange := Some(Bounds(firstDate.value, lastDate.value));
        }
      } else {
        visibleDateRange := None;
      }
    }

    /** `zoomIn()`: without a range or below scale 1 nothing changes; otherwise the scale
        and the range shrink by 0.8, the range staying inside the old one. */
    method ZoomIn()
      modifies this
      ensures priceData == old(priceData)
      ensures old(visibleDateRange).None? || old(scale) < 1.0 ==>
        scale == old(scale) && visibleDateRange == old(visibleDateRange)
      ensures old(visibleDateRange).Some? && old(scale) >= 1.0 ==>
        && CanJoin(ScaledBounds(old(visibleDateRange).value, 0.8))
        && scale == old(scale) * 0.8
        && visibleDateRange == Some(Scale(old(visibleDateRange).value, 0.8))
        && old(visibleDateRange).value.lower <= visibleDateRange.value.lower
        && visibleDateRange.value.upper <= old(visibleDateRange).value.upper
    {
      if visibleDateRange.None? || scale < 1.0 {
        return;
      }
      var range := visibleDateRange.value;
      ScaleNested(range, 0.8);
      scale := scale * 0.8;
      visibleDateRange := Some(Scale(range, 0.8));
    }

    /** `zoomOut()`: without a range or from scale 60 on nothing changes; otherwise the
        scale and the range grow by 1.2, the range covering the old one. */
    method ZoomOut()
      modifies this
      ensures priceData == old(priceData)
      ensures old(visibleDateRange).None? || old(scale) >= 60.0 ==>
        scale == old(scale) && visibleDateRange == old(visibleDateRange)
      ensures old(visibleDateRange).Some? && old(scale) < 60.0 ==>
        && CanJoin(ScaledBounds(old(visibleDateRange).value, 1.2))
        && scale == old(scale) * 1.2
        && visibleDateRange == Some(Scale(old(visibleDateRange).value, 1.2))
        && visibleDateRange.value.lower <= old(visibleDateRange).value.lower
        && old(visibleDateRange).value.upper <= visibleDateRange.value.upper
    {
      if visibleDateRange.None? || scale >= 60.0 {
        return;
      }
      var range := visibleDateRange.value;
      ScaleContains(range, 1.2);
      scale := scale * 1.2;
      visibleDateRange := Some(Scale(range, 1.2));
    }
  }
}
