/** KriyaFXOptionsMap.cs (class `KriyaFXOptionsMap`, symbol-selecting variant with GEX
    levels): the chain of the selected symbol is read from `Options`, the index-to-futures
    ratio is taken once from the futures ask price, the strike with the greatest and
    the least net GEX is located, and seven parallel per-strike lists are rebuilt. */
module KriyaFXOptionsMap {
  import opened Snapshots
  import opened ChunkReassembly
  import RatioWindow

  // ---------------------------------------------------------------------------
  // First greatest and first least value

  /** The index of the first strictly greatest value, as a running `>` comparison
      leaves it; `None` for an empty sequence. */
  function ArgMax(g: seq<real>): (r: Option<nat>)
    ensures r.None? <==> g == []
    ensures r.Some? ==> r.value < |g|
    ensures r.Some? ==> forall j :: 0 <= j < |g| ==> g[j] <= g[r.value]
    ensures r.Some? ==> forall j :: 0 <= j < r.value ==> g[j] < g[r.value]
  {
    if g == [] then None
    else
      var n := |g| - 1;
      var best := ArgMax(g[..n]);
      if best.None? || g[n] > g[best.value] then Some(n) else best
  }

  /** The index of the first strictly least value, as a running `<` comparison leaves it. */
  function ArgMin(g: seq<real>): (r: Option<nat>)
    ensures r.None? <==> g == []
    ensures r.Some? ==> r.value < |g|
    ensures r.Some? ==> forall j :: 0 <= j < |g| ==> g[r.value] <= g[j]
    ensures r.Some? ==> forall j :: 0 <= j < r.value ==> g[r.value] < g[j]
  {
    if g == [] then None
    else
      var n := |g| - 1;
      var best := ArgMin(g[..n]);
      if best.None? || g[n] < g[best.value] then Some(n) else best
  }

  // ---------------------------------------------------------------------------
  // The seven parallel per-strike lists and the GEX scan

  /** An item with `strike`, `Net_ASK_Volume`, `call`, `put` and `Net_GEX_Volume`. */
  predicate Qualifies(it: StrikeItem)
  {
    it.strike.Some? && it.netAskVolume.Some? && it.call.Some? && it.put.Some? && it.netGexVolume.Some?
  }

  /** The qualifying items, in input order. Each indicator file filters its own `Data`
      list under its own condition, so each module keeps its own copy. */
  function Qualifying(items: seq<StrikeItem>): (q: seq<StrikeItem>)
    ensures |q| <= |items|
    ensures forall i :: 0 <= i < |q| ==> Qualifies(q[i])
  {
    if items == [] then []
    else
      var rest := Qualifying(items[..|items| - 1]);
      var it := items[|items| - 1];
      if Qualifies(it) then rest + [it] else rest
  }

  /** The filter keeps every input item that qualifies and adds nothing. */
  lemma {:induction false} QualifyingKeepsEveryQualifier(items: seq<StrikeItem>)
    ensures forall it :: it in items && Qualifies(it) ==> it in Qualifying(items)
    ensures forall it :: it in Qualifying(items) ==> it in items
  {
    if items != [] {
      QualifyingKeepsEveryQualifier(items[..|items| - 1]);
      assert items == items[..|items| - 1] + [items[|items| - 1]];
    }
  }

  /** The `Net_GEX_Volume` of each item. */
  function GexOf(q: seq<StrikeItem>): (g: seq<real>)
    ensures |g| == |q|
  {
    seq(|q|, i requires 0 <= i < |q| => OrZero(q[i].netGexVolume))
  }

  datatype StrikeLists = StrikeLists(
    indexStrikes: seq<real>,
    strikeLevels: seq<real>,
    netAskVolumes: seq<real>,
    callAskVolumes: seq<real>,
    putAskVolumes: seq<real>,
    callProbabilityOfTouch: seq<real>,
    putProbabilityOfTouch: seq<real>)

  const NoLists := StrikeLists([], [], [], [], [], [], [])

  /** The source's `NetAskVolumeData` record. */
  datatype VolumeRecord = VolumeRecord(netAskVolume: real, netAskVolumeTimestamp: int)

  /** A running extreme: its `Net_GEX_Volume` and the index strike it was seen at. */
  datatype Extreme = Extreme(gex: real, strike: real)

  /** What the `foreach` over `Data` leaves behind. */
  datatype Scan = Scan(
    lists: StrikeLists,
    previous: map<real, VolumeRecord>,
    maxGex: Option<Extreme>,
    minGex: Option<Extreme>)

  function Append(ls: StrikeLists, it: StrikeItem, futureStrike: real): StrikeLists
    requires Qualifies(it)
  {
    StrikeLists(
      ls.indexStrikes + [it.strike.value],
      ls.strikeLevels + [futureStrike],
      ls.netAskVolumes + [it.netAskVolume.value],
      ls.callAskVolumes + [OrZero(it.call.value.askVolume)],
      ls.putAskVolumes + [OrZero(it.put.value.askVolume)],
      ls.callProbabilityOfTouch + [OrZero(it.call.value.probabilityOfTouch)],
      ls.putProbabilityOfTouch + [OrZero(it.put.value.probabilityOfTouch)])
  }

  /** One pass of the `foreach` body. `None` stands for the `double.MinValue` and
      `double.MaxValue` starting values: no GEX seen yet. */
  function ScanStep(r: Scan, it: StrikeItem, ratio: real, now: int): Scan
  {
    if !Qualifies(it) then r
    else
      var futureStrike := FutureStrike(it.strike.value, ratio);
      var gex := it.netGexVolume.value;
      Scan(Append(r.lists, it, futureStrike),
           r.previous[futureStrike := VolumeRecord(it.netAskVolume.value, now)],
           if r.maxGex.None? || gex > r.maxGex.value.gex then Some(Extreme(gex, it.strike.value)) else r.maxGex,
           if r.minGex.None? || gex < r.minGex.value.gex then Some(Extreme(gex, it.strike.value)) else r.minGex)
  }

  /** The `foreach` over `Data`, starting from cleared lists. */
  function ScanItems(previous: map<real, VolumeRecord>, items: seq<StrikeItem>, ratio: real, now: int): Scan
  {
    if items == [] then Scan(NoLists, previous, None, None)
    else ScanStep(ScanItems(previous, items[..|items| - 1], ratio, now), items[|items| - 1], ratio, now)
  }

  /** The extreme at index `i` of the qualifying items, if any. */
  function At(q: seq<StrikeItem>, i: Option<nat>): Option<Extreme>
  {
    if i.Some? && i.value < |q| then Some(Extreme(OrZero(q[i.value].netGexVolume), OrZero(q[i.value].strike))) else None
  }

  /** The strike kept in `maxGexStrike` / `minGexStrike`: 0 when no item qualified. */
  function StrikeOf(e: Option<Extreme>): real
  {
    if e.Some? then e.value.strike else 0.0
  }

  lemma GexOfSnoc(q: seq<StrikeItem>, it: StrikeItem)
    ensures GexOf(q + [it])[..|q|] == GexOf(q)
    ensures GexOf(q + [it])[|q|] == OrZero(it.netGexVolume)
  {
  }

  /** One more qualifying item moves the running maximum exactly when its GEX is
      strictly greater. */
  lemma MaxStep(r: Scan, q: seq<StrikeItem>, it: StrikeItem, ratio: real, now: int)
    requires Qualifies(it)
    requires r.maxGex == At(q, ArgMax(GexOf(q)))
    ensures ScanStep(r, it, ratio, now).maxGex == At(q + [it], ArgMax(GexOf(q + [it])))
  {
    GexOfSnoc(q, it);
    var a := ArgMax(GexOf(q));
    if a.Some? {
      assert (q + [it])[a.value] == q[a.value];
    }
  }

  lemma MinStep(r: Scan, q: seq<StrikeItem>, it: StrikeItem, ratio: real, now: int)
    requires Qualifies(it)
    requires r.minGex == At(q, ArgMin(GexOf(q)))
    ensures ScanStep(r, it, ratio, now).minGex == At(q + [it], ArgMin(GexOf(q + [it])))
  {
    GexOfSnoc(q, it);
    var a := ArgMin(GexOf(q));
    if a.Some? {
      assert (q + [it])[a.value] == q[a.value];
    }
  }

  /** The scan keeps the first qualifying item with the strictly greatest GEX and the
      first with the strictly least GEX; neither exists when no item qualifies. */
  lemma {:induction false} ScanFindsExtremes(previous: map<real, VolumeRecord>, items: seq<StrikeItem>, ratio: real, now: int)
    ensures var r := ScanItems(previous, items, ratio, now);
      var q := Qualifying(items);
      && r.maxGex == At(q, ArgMax(GexOf(q)))
      && r.minGex == At(q, ArgMin(GexOf(q)))
  {
    if items != [] {
      var init := items[..|items| - 1];
      var it := items[|items| - 1];
      ScanFindsExtremes(previous, init, ratio, now);
      if Qualifies(it) {
        var r := ScanItems(previous, init, ratio, now);
        MaxStep(r, Qualifying(init), it, ratio, now);
        MinStep(r, Qualifying(init), it, ratio, now);
      }
    }
  }

  /** All seven lists have length `n`. */
  ghost predicate Parallel(ls: StrikeLists, n: nat)
  {
    && |ls.indexStrikes| == n && |ls.strikeLevels| == n && |ls.netAskVolumes| == n
    && |ls.callAskVolumes| == n && |ls.putAskVolumes| == n
    && |ls.callProbabilityOfTouch| == n && |ls.putProbabilityOfTouch| == n
  }

  /** Row `i` of the lists is taken from item `it`, projected by `ratio`. */
  ghost predicate RowFrom(ls: StrikeLists, i: nat, it: StrikeItem, ratio: real)
    requires Parallel(ls, |ls.indexStrikes|) && i < |ls.indexStrikes| && Qualifies(it)
  {
    && ls.indexStrikes[i] == it.strike.value
    && ls.strikeLevels[i] == it.strike.value * ratio
    && ls.netAskVolumes[i] == it.netAskVolume.value
    && ls.callAskVolumes[i] == OrZero(it.call.value.askVolume)
    && ls.putAskVolumes[i] == OrZero(it.put.value.askVolume)
    && ls.callProbabilityOfTouch[i] == OrZero(it.call.value.probabilityOfTouch)
    && ls.putProbabilityOfTouch[i] == OrZero(it.put.value.probabilityOfTouch)
  }

  /** The rebuilt lists have one row per qualifying item, in input order. */
  lemma {:induction false} ScanBuildsParallelLists(previous: map<real, VolumeRecord>, items: seq<StrikeItem>, ratio: real, now: int)
    ensures var ls := ScanItems(previous, items, ratio, now).lists;
      var q := Qualifying(items);
      && Parallel(ls, |q|)
      && forall i :: 0 <= i < |q| ==> RowFrom(ls, i, q[i], ratio)
  {
    if items != [] {
      ScanBuildsParallelLists(previous, items[..|items| - 1], ratio, now);
    }
  }

  // ---------------------------------------------------------------------------
  // Colour band of a strike row

  datatype Band = Red | Green | Yellow | Blue

  /** The band `GetColorForNetAskVolume` picks; the gradient intensity inside a band
      is not modelled. The thresholds are given in millions. */
  function BandFor(netAskVolume: real, callAskVolume: real, putAskVolume: real,
                   strikeMoneyThreshold: real, strikeMoneyAlert: real): (r: Band)
    ensures var dominant := Max(Abs(callAskVolume), Abs(putAskVolume));
      var threshold := strikeMoneyThreshold * 1000000.0;
      var alert := strikeMoneyAlert * 1000000.0;
      && (r == Red <==> dominant > threshold && netAskVolume < 0.0)
      && (r == Green <==> dominant > threshold && netAskVolume >= 0.0)
      && (r == Yellow <==> alert < dominant < threshold)
      && (r == Blue <==> dominant == threshold || (dominant <= threshold && dominant <= alert))
  {
    var threshold := strikeMoneyThreshold * 1000000.0;
    var alert := strikeMoneyAlert * 1000000.0;
    var dominant := Max(Abs(callAskVolume), Abs(putAskVolume));
    if dominant > threshold then
      (if netAskVolume < 0.0 then Red else Green)
    else if dominant > alert && dominant < threshold then Yellow
    else Blue
  }

  /** The band depends on the call and put volumes only through their magnitudes. */
  lemma BandIgnoresSides(netAskVolume: real, call: real, put: real, threshold: real, alert: real)
    ensures BandFor(netAskVolume, call, put, threshold, alert) == BandFor(netAskVolume, Abs(put), Abs(call), threshold, alert)
  {
    assert Max(Abs(call), Abs(put)) == Max(Abs(Abs(put)), Abs(Abs(call)));
  }

  // ---------------------------------------------------------------------------
  // Snapshot ingestion

  /** Every field `ProcessOptionsData` reads or writes. */
  datatype State = State(
    lists: StrikeLists,
    previous: map<real, VolumeRecord>,
    futurePrice: real,
    indexPrice: real,
    ratioHistory: seq<real>,
    currentRatio: real,
    isRatioCalculated: bool,
    expectedMove: real,
    isExpectedMoveLevelsCalculated: bool,
    fixedExpectedMaxPrice: real,
    fixedExpectedMinPrice: real,
    maxGexLevel: real,
    minGexLevel: real,
    isGexLevelsCalculated: bool,
    totalAskVolume: real,
    totalGexVolume: real,
    isDataFetched: bool,
    lastUpdateTimestamp: int,
    underlyingSymbol: Option<string>)

  const Initial := State(NoLists, map[], 0.0, 0.0, [], 0.0, false, 0.0, false, 0.0, 0.0,
                         0.0, 0.0, false, 0.0, 0.0, false, 0, None)

  /** A selected chain with a new timestamp and a `Price`: everything up to the list
      rebuild runs. */
  predicate Fresh(st: State, snap: Snapshot, selected: string)
  {
    && Selects(snap, selected)
    && UpdatedReadable(snap.options.value.symbols[selected])
    && UpdatedOrZero(snap.options.value.symbols[selected]) != st.lastUpdateTimestamp
    && snap.options.value.symbols[selected].price.Some?
  }

  /** `ProcessOptionsData` with `SelectedSymbol == selected`. */
  function Process(st: State, snap: Snapshot, selected: string): State
  {
    if !Selects(snap, selected) then st.(isDataFetched := false)
    else
      var chain := snap.options.value.symbols[selected];
      if !UpdatedReadable(chain) then st.(isDataFetched := false)
      else
      var now := UpdatedOrZero(chain);
      if now == st.lastUpdateTimestamp then st
      else Ingest(st, snap.options.value.fields, chain, now)
  }

  /** Everything after the timestamp check. `outer` holds the keys of `Options` itself,
      `chain` those of the selected symbol's entry. A missing `Price` throws after the
      timestamp and the symbol are written; the `catch` clears `isDataFetched`. */
  function Ingest(st: State, outer: Block, chain: Block, now: int): State
    requires chain.data.Some?
  {
    if chain.price.None? then Stamp(st, chain, now).(isDataFetched := false)
    else Refresh(Levels(st, chain, now), outer, chain)
  }

  /** The timestamp, the symbol, the price, the ratio and the expected-move band. */
  function Levels(st: State, chain: Block, now: int): State
    requires chain.price.Some?
  {
    var price := chain.price.value;
    ApplyExpectedMove(ApplyPrice(Stamp(st, chain, now), price), price, chain.expectedMove)
  }

  function Stamp(st: State, chain: Block, now: int): State
  {
    st.(lastUpdateTimestamp := now,
        underlyingSymbol := if chain.symbol.Some? then chain.symbol else st.underlyingSymbol)
  }

  /** `UpdateRatio`: with both prices positive, the current ratio joins the history
      and the ratio in force becomes the history's mean. */
  function UpdatedRatio(st: State): State
  {
    if st.futurePrice > 0.0 && st.indexPrice > 0.0 then
      var h := RatioWindow.Push(st.ratioHistory, st.futurePrice / st.indexPrice);
      st.(ratioHistory := h, currentRatio := RatioWindow.Mean(h))
    else st
  }

  /** The index price is stored; the first time both prices are positive the ratio is
      updated and latched. */
  function ApplyPrice(st: State, price: real): State
  {
    var s := st.(indexPrice := price);
    if !s.isRatioCalculated && s.futurePrice > 0.0 && price > 0.0 then UpdatedRatio(s).(isRatioCalculated := true)
    else s
  }

  /** The `ExpectedMove` block: the band is fixed by the first snapshot carrying it. */
  function ApplyExpectedMove(st: State, price: real, move: Option<real>): State
  {
    if move.None? then st
    else if st.isExpectedMoveLevelsCalculated then st.(expectedMove := move.value, indexPrice := price)
    else st.(expectedMove := move.value, indexPrice := price,
             fixedExpectedMaxPrice := FutureStrike(price + move.value, st.currentRatio),
             fixedExpectedMinPrice := FutureStrike(price - move.value, st.currentRatio),
             isExpectedMoveLevelsCalculated := true)
  }

  /** The list rebuild, the GEX levels and the totals. `Total_GEX_Volume` is looked up
      in `Options` but read from the chain: when only `Options` has it, the read throws
      and the `catch` clears `isDataFetched`, after everything else was written. */
  function Refresh(st: State, outer: Block, chain: Block): State
    requires chain.data.Some?
  {
    var r := ScanItems(st.previous, chain.data.value, st.currentRatio, st.lastUpdateTimestamp);
    st.(lists := r.lists, previous := r.previous,
        maxGexLevel := FutureStrike(StrikeOf(r.maxGex), st.currentRatio),
        minGexLevel := FutureStrike(StrikeOf(r.minGex), st.currentRatio),
        isGexLevelsCalculated := true,
        totalAskVolume := if chain.totalAskVolume.Some? then chain.totalAskVolume.value else st.totalAskVolume,
        totalGexVolume := if outer.totalGexVolume.Some? && chain.totalGexVolume.Some? then chain.totalGexVolume.value
                          else st.totalGexVolume,
        isDataFetched := !GexTotalThrows(outer, chain))
  }

  /** `Total_GEX_Volume` is looked up in `Options` but read from the chain. */
  predicate GexTotalThrows(outer: Block, chain: Block)
  {
    outer.totalGexVolume.Some? && chain.totalGexVolume.None?
  }

  /** A snapshot without `Options`, without an entry for the selected symbol, or whose
      entry lacks `Data` clears `isDataFetched` and touches nothing else. */
  lemma MissingChainOnlyClearsFlag(st: State, snap: Snapshot, selected: string)
    requires !Selects(snap, selected)
    ensures Process(st, snap, selected) == st.(isDataFetched := false)
  {
  }

  /** An `Updated` outside the `long` range makes `Convert.ToInt64` throw before the
      timestamp is compared or stored; the `catch` clears `isDataFetched` and nothing
      else changes. */
  lemma OverflowingTimestampOnlyClearsFlag(st: State, snap: Snapshot, selected: string)
    requires Selects(snap, selected) && !UpdatedReadable(snap.options.value.symbols[selected])
    ensures Process(st, snap, selected) == st.(isDataFetched := false)
  {
  }

  /** So the stored timestamp is always a `long`. */
  lemma StoredTimestampIsInt64(st: State, snap: Snapshot, selected: string)
    requires IsInt64(st.lastUpdateTimestamp)
    ensures IsInt64(Process(st, snap, selected).lastUpdateTimestamp)
  {
    if Fresh(st, snap, selected) {
      var chain := snap.options.value.symbols[selected];
      var l := Levels(st, chain, UpdatedOrZero(chain));
      assert l.lastUpdateTimestamp == UpdatedOrZero(chain);
      assert Refresh(l, snap.options.value.fields, chain).lastUpdateTimestamp == l.lastUpdateTimestamp;
      FreshIsRefresh(st, snap, selected);
    }
  }

  /** A snapshot whose `Updated` equals the last one processed changes nothing (the
      stored timestamp is a `long`, so an equal one converts without throwing). */
  lemma RepeatedTimestampIsSkipped(st: State, snap: Snapshot, selected: string)
    requires IsInt64(st.lastUpdateTimestamp)
    requires Selects(snap, selected)
    requires UpdatedOrZero(snap.options.value.symbols[selected]) == st.lastUpdateTimestamp
    ensures Process(st, snap, selected) == st
  {
  }

  /** The ratio history holds at most one ratio, present exactly once the ratio is
      latched, and the ratio in force is that ratio (0 before). */
  ghost predicate RatioLatched(st: State)
  {
    && (st.isRatioCalculated <==> |st.ratioHistory| == 1)
    && |st.ratioHistory| <= 1
    && (st.ratioHistory == [] ==> st.currentRatio == 0.0)
    && (|st.ratioHistory| == 1 ==> st.currentRatio == st.ratioHistory[0] > 0.0)
  }

  lemma InitialRatioLatched()
    ensures RatioLatched(Initial)
  {
  }

  /** A fresh snapshot runs the whole pipeline: stamp, price, ratio, band, rebuild. */
  lemma FreshIsRefresh(st: State, snap: Snapshot, selected: string)
    requires Fresh(st, snap, selected)
    ensures var chain := snap.options.value.symbols[selected];
      Process(st, snap, selected) == Refresh(Levels(st, chain, UpdatedOrZero(chain)), snap.options.value.fields, chain)
  {
  }

  /** Any other snapshot leaves the ratio and the expected-move band alone. */
  lemma StaleKeepsLevels(st: State, snap: Snapshot, selected: string)
    requires !Fresh(st, snap, selected)
    ensures var r := Process(st, snap, selected);
      && r.ratioHistory == st.ratioHistory && r.currentRatio == st.currentRatio
      && r.isRatioCalculated == st.isRatioCalculated
      && r.isExpectedMoveLevelsCalculated == st.isExpectedMoveLevelsCalculated
      && r.fixedExpectedMaxPrice == st.fixedExpectedMaxPrice
      && r.fixedExpectedMinPrice == st.fixedExpectedMinPrice
  {
    if Selects(snap, selected) {
      var chain := snap.options.value.symbols[selected];
      if UpdatedReadable(chain) && UpdatedOrZero(chain) != st.lastUpdateTimestamp {
        assert Process(st, snap, selected) == Stamp(st, chain, UpdatedOrZero(chain)).(isDataFetched := false);
      }
    }
  }

  /** Storing an index price updates the ratio only while it is not latched and both
      prices are positive; the update leaves exactly futures / index price in force. */
  lemma ApplyPriceLatches(st: State, price: real)
    requires RatioLatched(st)
    ensures var r := ApplyPrice(st, price);
      && RatioLatched(r)
      && r.indexPrice == price
      && (st.isRatioCalculated ==> r.currentRatio == st.currentRatio && r.ratioHistory == st.ratioHistory)
      && (!st.isRatioCalculated && r.isRatioCalculated ==>
            st.futurePrice > 0.0 && price > 0.0 && r.currentRatio == st.futurePrice / price)
      && (!r.isRatioCalculated ==> r.currentRatio == 0.0)
  {
    if !st.isRatioCalculated && st.futurePrice > 0.0 && price > 0.0 {
      FirstRatio(st, price);
    }
  }

  /** The first ratio update leaves a one-entry history holding futures / index price. */
  lemma FirstRatio(st: State, price: real)
    requires RatioLatched(st) && !st.isRatioCalculated && st.futurePrice > 0.0 && price > 0.0
    ensures var r := ApplyPrice(st, price);
      && r.isRatioCalculated
      && r.ratioHistory == [st.futurePrice / price]
      && r.currentRatio == st.futurePrice / price > 0.0
  {
    var q := st.futurePrice / price;
    RatioWindow.FirstPush(q);
    assert q > 0.0;
  }

  /** `UpdateRatio` runs at most once: it runs on the first fresh snapshot arriving
      while both prices are positive, which sets the ratio to futures / index price;
      before that the ratio stays 0 and afterwards it never changes. */
  lemma RatioIsUpdatedOnce(st: State, snap: Snapshot, selected: string)
    requires RatioLatched(st)
    ensures var r := Process(st, snap, selected);
      && RatioLatched(r)
      && (st.isRatioCalculated ==> r.currentRatio == st.currentRatio && r.ratioHistory == st.ratioHistory)
      && (!st.isRatioCalculated && r.isRatioCalculated ==>
            Fresh(st, snap, selected) && st.futurePrice > 0.0
            && r.indexPrice > 0.0 && r.currentRatio == st.futurePrice / r.indexPrice)
      && (!r.isRatioCalculated ==> r.currentRatio == 0.0)
  {
    if Fresh(st, snap, selected) {
      var chain := snap.options.value.symbols[selected];
      var p := ApplyPrice(Stamp(st, chain, UpdatedOrZero(chain)), chain.price.value);
      FreshKeepsRatio(st, snap, selected);
      ApplyPriceLatches(Stamp(st, chain, UpdatedOrZero(chain)), chain.price.value);
      assert SameRatio(Process(st, snap, selected), p);
    } else {
      StaleKeepsLevels(st, snap, selected);
    }
  }

  /** The ratio fields and the index price agree. */
  ghost predicate SameRatio(a: State, b: State)
  {
    a.ratioHistory == b.ratioHistory && a.currentRatio == b.currentRatio
    && a.isRatioCalculated == b.isRatioCalculated && a.indexPrice == b.indexPrice
  }

  /** After the price block, a fresh snapshot changes neither the ratio nor the index price. */
  lemma FreshKeepsRatio(st: State, snap: Snapshot, selected: string)
    requires Fresh(st, snap, selected)
    ensures var chain := snap.options.value.symbols[selected];
      SameRatio(Process(st, snap, selected), ApplyPrice(Stamp(st, chain, UpdatedOrZero(chain)), chain.price.value))
  {
    FreshIsRefresh(st, snap, selected);
  }

  /** A fresh snapshot that carries a price rebuilds the seven lists, one row per item
      carrying the five keys, and places the GEX levels at the first strike of greatest
      and of least net GEX, times the ratio in force; with no such item both levels are
      0, and either way the levels count as calculated. */
  lemma FreshSnapshotSetsGexLevels(st: State, snap: Snapshot, selected: string)
    requires Fresh(st, snap, selected)
    ensures var r := Process(st, snap, selected);
      var q := Qualifying(snap.options.value.symbols[selected].data.value);
      var hi := ArgMax(GexOf(q));
      var lo := ArgMin(GexOf(q));
      && r.isGexLevelsCalculated
      && Parallel(r.lists, |q|)
      && (forall i :: 0 <= i < |q| ==> RowFrom(r.lists, i, q[i], r.currentRatio))
      && (q == [] ==> r.maxGexLevel == 0.0 && r.minGexLevel == 0.0)
      && (hi.Some? ==> r.maxGexLevel == FutureStrike(q[hi.value].strike.value, r.currentRatio))
      && (lo.Some? ==> r.minGexLevel == FutureStrike(q[lo.value].strike.value, r.currentRatio))
  {
    var chain := snap.options.value.symbols[selected];
    FreshIsRefresh(st, snap, selected);
    RefreshSetsGexLevels(Levels(st, chain, UpdatedOrZero(chain)), snap.options.value.fields, chain);
  }

  /** The rebuild on its own, from any state. */
  lemma RefreshSetsGexLevels(s: State, outer: Block, chain: Block)
    requires chain.data.Some?
    ensures var r := Refresh(s, outer, chain);
      var q := Qualifying(chain.data.value);
      var hi := ArgMax(GexOf(q));
      var lo := ArgMin(GexOf(q));
      && r.currentRatio == s.currentRatio
      && r.isGexLevelsCalculated
      && Parallel(r.lists, |q|)
      && (forall i :: 0 <= i < |q| ==> RowFrom(r.lists, i, q[i], s.currentRatio))
      && (q == [] ==> r.maxGexLevel == 0.0 && r.minGexLevel == 0.0)
      && (hi.Some? ==> r.maxGexLevel == FutureStrike(q[hi.value].strike.value, s.currentRatio))
      && (lo.Some? ==> r.minGexLevel == FutureStrike(q[lo.value].strike.value, s.currentRatio))
  {
    var sc := ScanItems(s.previous, chain.data.value, s.currentRatio, s.lastUpdateTimestamp);
    ScanFindsExtremes(s.previous, chain.data.value, s.currentRatio, s.lastUpdateTimestamp);
    ScanBuildsParallelLists(s.previous, chain.data.value, s.currentRatio, s.lastUpdateTimestamp);
    var q := Qualifying(chain.data.value);
    var hi := ArgMax(GexOf(q));
    var lo := ArgMin(GexOf(q));
    if hi.Some? {
      assert StrikeOf(sc.maxGex) == q[hi.value].strike.value;
    }
    if lo.Some? {
      assert StrikeOf(sc.minGex) == q[lo.value].strike.value;
    }
  }

  /** The expected-move band is set once, from the first fresh snapshot carrying
      `ExpectedMove`, as `(price ± move) * currentRatio`, and never changes afterwards. */
  lemma ExpectedMoveIsLatchedOnce(st: State, snap: Snapshot, selected: string)
    ensures var r := Process(st, snap, selected);
      && (st.isExpectedMoveLevelsCalculated ==>
            r.isExpectedMoveLevelsCalculated
            && r.fixedExpectedMaxPrice == st.fixedExpectedMaxPrice
            && r.fixedExpectedMinPrice == st.fixedExpectedMinPrice)
      && (!st.isExpectedMoveLevelsCalculated && Fresh(st, snap, selected)
          && snap.options.value.symbols[selected].expectedMove.Some? ==>
            var chain := snap.options.value.symbols[selected];
            && r.isExpectedMoveLevelsCalculated
            && r.fixedExpectedMaxPrice == FutureStrike(chain.price.value + chain.expectedMove.value, r.currentRatio)
            && r.fixedExpectedMinPrice == FutureStrike(chain.price.value - chain.expectedMove.value, r.currentRatio))
  {
    if Fresh(st, snap, selected) {
      var chain := snap.options.value.symbols[selected];
      var levels := Levels(st, chain, UpdatedOrZero(chain));
      FreshIsRefresh(st, snap, selected);
      LevelsLatchBand(st, chain, UpdatedOrZero(chain));
      RefreshKeepsBand(levels, snap.options.value.fields, chain);
    } else {
      StaleKeepsLevels(st, snap, selected);
    }
  }

  /** The levels step keeps a latched band, and latches an unset one from the
      snapshot's price and move at the ratio it leaves in force. */
  lemma LevelsLatchBand(st: State, chain: Block, now: int)
    requires chain.price.Some?
    ensures var r := Levels(st, chain, now);
      && (st.isExpectedMoveLevelsCalculated ==>
            r.isExpectedMoveLevelsCalculated
            && r.fixedExpectedMaxPrice == st.fixedExpectedMaxPrice
            && r.fixedExpectedMinPrice == st.fixedExpectedMinPrice)
      && (!st.isExpectedMoveLevelsCalculated && chain.expectedMove.Some? ==>
            && r.isExpectedMoveLevelsCalculated
            && r.fixedExpectedMaxPrice == FutureStrike(chain.price.value + chain.expectedMove.value, r.currentRatio)
            && r.fixedExpectedMinPrice == FutureStrike(chain.price.value - chain.expectedMove.value, r.currentRatio))
  {
    var priced := ApplyPrice(Stamp(st, chain, now), chain.price.value);
    assert priced.isExpectedMoveLevelsCalculated == st.isExpectedMoveLevelsCalculated
      && priced.fixedExpectedMaxPrice == st.fixedExpectedMaxPrice
      && priced.fixedExpectedMinPrice == st.fixedExpectedMinPrice;
  }

  /** The rebuild leaves the ratio and the band as the levels step set them. */
  lemma RefreshKeepsBand(st: State, outer: Block, chain: Block)
    requires chain.data.Some?
    ensures var r := Refresh(st, outer, chain);
      && r.currentRatio == st.currentRatio && r.isExpectedMoveLevelsCalculated == st.isExpectedMoveLevelsCalculated
      && r.fixedExpectedMaxPrice == st.fixedExpectedMaxPrice && r.fixedExpectedMinPrice == st.fixedExpectedMinPrice
  {
  }

  /** The band is latched with the ratio in force at the time, even when no ask has
      arrived yet: a first `ExpectedMove` seen before any futures price fixes both
      bounds at 0, and the latch keeps them there. */
  lemma BandBeforeFirstAskIsZero(st: State, snap: Snapshot, selected: string)
    requires RatioLatched(st) && !st.isRatioCalculated && st.futurePrice == 0.0
    requires !st.isExpectedMoveLevelsCalculated && Fresh(st, snap, selected)
    requires snap.options.value.symbols[selected].expectedMove.Some?
    ensures var r := Process(st, snap, selected);
      && r.isExpectedMoveLevelsCalculated && !r.isRatioCalculated
      && r.fixedExpectedMaxPrice == 0.0 && r.fixedExpectedMinPrice == 0.0
  {
    RatioIsUpdatedOnce(st, snap, selected);
    ExpectedMoveIsLatchedOnce(st, snap, selected);
  }

  /** The market-data event kinds: only an ask moves the futures price. */
  function MarketData(st: State, kind: MarketDataType, price: real): State
  {
    if kind == Ask then st.(futurePrice := price) else st
  }

  /** The routing of `ProcessReassembledMessage`. */
  function Dispatch(st: State, env: Envelope, selected: string): State
  {
    var payload := UpdatePayload(env);
    if payload.Some? then Process(st, payload.value, selected) else st
  }

  // ---------------------------------------------------------------------------
  // The indicator object

  class KriyaFXOptionsMap {
    /** `indexStrikes`, `strikeLevels`, `netAskVolumes`, `callAskVolumes`,
        `putAskVolumes`, `callProbabilityOfTouch` and `putProbabilityOfTouch`: always
        cleared and appended together, so held as one record. */
    var lists: StrikeLists
    var previousNetAskVolumeData: map<real, VolumeRecord>

    var futurePrice: real
    var indexPrice: real
    var ratioHistory: seq<real>
    var currentRatio: real
    var isRatioCalculated: bool
    var expectedMove: real
    var isExpectedMoveLevelsCalculated: bool
    var fixedExpectedMaxPrice: real
    var fixedExpectedMinPrice: real
    var maxGexLevel: real
    var minGexLevel: real
    var isGexLevelsCalculated: bool
    var totalAskVolume: real
    var totalGexVolume: real
    var isDataFetched: bool
    var lastUpdateTimestamp: int
    var underlyingSymbol: Option<string>

    /** The `SelectedSymbol` property. */
    const selectedSymbol: string
    const messageChunks: ChunkBuffer

    ghost function View(): State
      reads this
    {
      State(lists, previousNetAskVolumeData, futurePrice, indexPrice, ratioHistory, currentRatio,
            isRatioCalculated, expectedMove, isExpectedMoveLevelsCalculated,
            fixedExpectedMaxPrice, fixedExpectedMinPrice, maxGexLevel, minGexLevel,
            isGexLevelsCalculated, totalAskVolume, totalGexVolume, isDataFetched,
            lastUpdateTimestamp, underlyingSymbol)
    }

    constructor (selected: string)
      ensures View() == Initial && selectedSymbol == selected
      ensures fresh(messageChunks) && messageChunks.slots == []
    {
      lists := NoLists;
      previousNetAskVolumeData := map[];
      futurePrice, indexPrice, ratioHistory, currentRatio, isRatioCalculated := 0.0, 0.0, [], 0.0, false;
      expectedMove, isExpectedMoveLevelsCalculated := 0.0, false;
      fixedExpectedMaxPrice, fixedExpectedMinPrice := 0.0, 0.0;
      maxGexLevel, minGexLevel, isGexLevelsCalculated := 0.0, 0.0, false;
      totalAskVolume, totalGexVolume := 0.0, 0.0;
      isDataFetched, lastUpdateTimestamp, underlyingSymbol := false, 0, None;
      selectedSymbol := selected;
      messageChunks := new ChunkBuffer();
    }

    method OnMarketData(kind: MarketDataType, price: real)
      modifies this`futurePrice
      ensures View() == MarketData(old(View()), kind, price)
    {
      if kind == Ask {
        futurePrice := price;
      }
    }

    method UpdateRatio()
      modifies this`ratioHistory, this`currentRatio
      ensures View() == UpdatedRatio(old(View()))
    {
      if futurePrice > 0.0 && indexPrice > 0.0 {
        var newRatio := futurePrice / indexPrice;
        ratioHistory := ratioHistory + [newRatio];
        if |ratioHistory| > RatioWindow.Capacity {
          ratioHistory := ratioHistory[1..];
        }
        currentRatio := RatioWindow.Mean(ratioHistory);
      }
    }

    method ProcessOptionsData(snap: Snapshot)
      modifies this
      ensures View() == Process(old(View()), snap, selectedSymbol)
    {
      if snap.options.None? {
        isDataFetched := false;
        return;
      }
      var options := snap.options.value;
      if selectedSymbol !in options.symbols {
        isDataFetched := false;
        return;
      }
      var symbolData := options.symbols[selectedSymbol];
      if symbolData.data.None? {
        isDataFetched := false;
        return;
      }
      var currentUpdateTimestamp := 0;
      if symbolData.updated.Some? {
        if !IsInt64(symbolData.updated.value) {
          isDataFetched := false;  // Convert.ToInt64 throws; the catch clears the flag
          return;
        }
        currentUpdateTimestamp := symbolData.updated.value;
      }
      if currentUpdateTimestamp != lastUpdateTimestamp {
        IngestSnapshot(options.fields, symbolData, currentUpdateTimestamp);
      }
    }

    /** `ProcessOptionsData` past the timestamp check. */
    method IngestSnapshot(outer: Block, symbolData: Block, currentUpdateTimestamp: int)
      requires symbolData.data.Some?
      modifies this
      ensures View() == Ingest(old(View()), outer, symbolData, currentUpdateTimestamp)
    {
      ghost var stamped := Stamp(View(), symbolData, currentUpdateTimestamp);
      lastUpdateTimestamp := currentUpdateTimestamp;
      if symbolData.symbol.Some? {
        underlyingSymbol := symbolData.symbol;
      }
      assert View() == stamped;
      if symbolData.price.None? {
        isDataFetched := false;  // symbolData["Price"] throws; the catch clears the flag
        return;
      }
      IngestPriced(outer, symbolData, symbolData.price.value);
    }

    /** `ProcessOptionsData` once `Price` has been read. */
    method IngestPriced(outer: Block, symbolData: Block, price: real)
      requires symbolData.data.Some?
      modifies this
      ensures View() == Refresh(ApplyExpectedMove(ApplyPrice(old(View()), price), price, symbolData.expectedMove), outer, symbolData)
    {
      UpdateLevels(price, symbolData.expectedMove);
      RefreshStrikes(outer, symbolData);
    }

    /** The price, ratio and expected-move blocks. */
    method UpdateLevels(price: real, move: Option<real>)
      modifies this`indexPrice, this`ratioHistory, this`currentRatio, this`isRatioCalculated,
               this`expectedMove, this`fixedExpectedMaxPrice, this`fixedExpectedMinPrice,
               this`isExpectedMoveLevelsCalculated
      ensures View() == ApplyExpectedMove(ApplyPrice(old(View()), price), price, move)
    {
      UpdatePrices(price);
      if move.Some? {
        UpdateExpectedMove(price, move.value);
      }
    }

    /** The index price and the once-only ratio update. */
    method UpdatePrices(price: real)
      modifies this`indexPrice, this`ratioHistory, this`currentRatio, this`isRatioCalculated
      ensures View() == ApplyPrice(old(View()), price)
    {
      indexPrice := price;
      if !isRatioCalculated && futurePrice > 0.0 && indexPrice > 0.0 {
        UpdateRatio();
        isRatioCalculated := true;
      }
    }

    /** The `ExpectedMove` block. */
    method UpdateExpectedMove(price: real, move: real)
      modifies this`expectedMove, this`indexPrice, this`fixedExpectedMaxPrice,
               this`fixedExpectedMinPrice, this`isExpectedMoveLevelsCalculated
      ensures View() == ApplyExpectedMove(old(View()), price, Some(move))
    {
      expectedMove := move;
      indexPrice := price;
      if !isExpectedMoveLevelsCalculated {
        fixedExpectedMaxPrice := (indexPrice + expectedMove) * currentRatio;
        fixedExpectedMinPrice := (indexPrice - expectedMove) * currentRatio;
        isExpectedMoveLevelsCalculated := true;
      }
    }

    /** The list rebuild, the GEX levels, the totals and the flag. */
    method RefreshStrikes(outer: Block, symbolData: Block)
      requires symbolData.data.Some?
      modifies this`lists, this`previousNetAskVolumeData, this`maxGexLevel, this`minGexLevel,
               this`isGexLevelsCalculated, this`totalAskVolume, this`totalGexVolume, this`isDataFetched
      ensures var r := Refresh(old(View()), outer, symbolData);
        && lists == r.lists && previousNetAskVolumeData == r.previous
        && maxGexLevel == r.maxGexLevel && minGexLevel == r.minGexLevel
        && isGexLevelsCalculated == r.isGexLevelsCalculated
        && totalAskVolume == r.totalAskVolume && totalGexVolume == r.totalGexVolume
        && isDataFetched == r.isDataFetched
    {
      var maxGexStrike, minGexStrike := RebuildStrikeLists(symbolData.data.value);
      maxGexLevel := FutureStrike(maxGexStrike, currentRatio);
      minGexLevel := FutureStrike(minGexStrike, currentRatio);
      isGexLevelsCalculated := true;
      if symbolData.totalAskVolume.Some? {
        totalAskVolume := symbolData.totalAskVolume.value;
      }
      if outer.totalGexVolume.Some? {
        if symbolData.totalGexVolume.None? {
          isDataFetched := false;  // symbolData["Total_GEX_Volume"] throws; the catch clears the flag
          return;
        }
        totalGexVolume := symbolData.totalGexVolume.value;
      }
      isDataFetched := true;
    }

    /** The clearing of the seven lists and the `foreach` over `Data`, returning the
        strikes of greatest and least net GEX. */
    method RebuildStrikeLists(items: seq<StrikeItem>) returns (maxGexStrike: real, minGexStrike: real)
      modifies this`lists, this`previousNetAskVolumeData
      ensures var r := ScanItems(old(previousNetAskVolumeData), items, currentRatio, lastUpdateTimestamp);
        && lists == r.lists && previousNetAskVolumeData == r.previous
        && maxGexStrike == StrikeOf(r.maxGex) && minGexStrike == StrikeOf(r.minGex)
    {
      lists := NoLists;
      ghost var start := previousNetAskVolumeData;
      var maxGex: Option<real> := None;
      var minGex: Option<real> := None;
      maxGexStrike, minGexStrike := 0.0, 0.0;
      var i := 0;
      while i < |items|
        invariant 0 <= i <= |items|
        invariant Scan(lists, previousNetAskVolumeData, Running(maxGex, maxGexStrike), Running(minGex, minGexStrike))
                  == ScanItems(start, items[..i], currentRatio, lastUpdateTimestamp)
        invariant maxGex.None? ==> maxGexStrike == 0.0
        invariant minGex.None? ==> minGexStrike == 0.0
      {
        var item := items[i];
        assert items[..i + 1][..i] == items[..i] && items[..i + 1][i] == item;
        if Qualifies(item) {
          AppendItem(item);
          var strike := item.strike.value;
          var netGexVolume := item.netGexVolume.value;
          if maxGex.None? || netGexVolume > maxGex.value {
            maxGex := Some(netGexVolume);
            maxGexStrike := strike;
          }
          if minGex.None? || netGexVolume < minGex.value {
            minGex := Some(netGexVolume);
            minGexStrike := strike;
          }
        }
        i := i + 1;
      }
      assert items[..i] == items;
    }

    /** The `foreach` body's list and dictionary updates for one qualifying item. */
    method AppendItem(item: StrikeItem)
      requires Qualifies(item)
      modifies this`lists, this`previousNetAskVolumeData
      ensures var futureStrike := FutureStrike(item.strike.value, currentRatio);
        && lists == Append(old(lists), item, futureStrike)
        && previousNetAskVolumeData
           == old(previousNetAskVolumeData)[futureStrike := VolumeRecord(item.netAskVolume.value, lastUpdateTimestamp)]
    {
      var indexStrike := item.strike.value;
      var futureStrike := FutureStrike(indexStrike, currentRatio);
      var netAskVolume := item.netAskVolume.value;
      var call := item.call.value;
      var put := item.put.value;
      var callAskVolume := if call.askVolume.Some? then call.askVolume.value else 0.0;
      var putAskVolume := if put.askVolume.Some? then put.askVolume.value else 0.0;
      var callPoT := if call.probabilityOfTouch.Some? then call.probabilityOfTouch.value else 0.0;
      var putPoT := if put.probabilityOfTouch.Some? then put.probabilityOfTouch.value else 0.0;
      previousNetAskVolumeData := previousNetAskVolumeData[futureStrike := VolumeRecord(netAskVolume, lastUpdateTimestamp)];
      lists := lists.(
        indexStrikes := lists.indexStrikes + [indexStrike],
        strikeLevels := lists.strikeLevels + [futureStrike],
        netAskVolumes := lists.netAskVolumes + [netAskVolume],
        callAskVolumes := lists.callAskVolumes + [callAskVolume],
        putAskVolumes := lists.putAskVolumes + [putAskVolume],
        callProbabilityOfTouch := lists.callProbabilityOfTouch + [callPoT],
        putProbabilityOfTouch := lists.putProbabilityOfTouch + [putPoT]);
    }

    method ProcessReassembledMessage(env: Envelope)
      modifies this
      ensures View() == Dispatch(old(View()), env, selectedSymbol)
    {
      if env.kind == Some("update") {
        if env.data.Some? {
          ProcessOptionsData(env.data.value);
        }
      }
    }

    /** `decode` stands for the JSON deserialiser applied to the reassembled text. */
    method ProcessWebSocketMessage(m: ChunkMessage, raw: string, decode: string -> Envelope)
      modifies this, messageChunks
      ensures var step := Deliver(old(messageChunks.slots), m, raw);
        && messageChunks.slots == step.slots
        && View() == if step.forwarded.Some? then Dispatch(old(View()), decode(step.forwarded.value), selectedSymbol)
                     else old(View())
    {
      var forwarded := messageChunks.Receive(m, raw);
      if forwarded.Some? {
        ProcessReassembledMessage(decode(forwarded.value));
      }
    }
  }

  /** The running extreme as the loop's `maxGex`/`maxGexStrike` pair holds it. */
  function Running(gex: Option<real>, strike: real): Option<Extreme>
  {
    if gex.Some? then Some(Extreme(gex.value, strike)) else None
  }
}
