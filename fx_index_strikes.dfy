/** KriyaFXIndexStrikes.cs (class `KriyaFXIndexStrikes`): the chain of the selected
    symbol is read from `Options`; every snapshot with a new timestamp pushes the
    current futures / index price ratio onto a window of at most 100 ratios, whose mean
    becomes the ratio in force, and rebuilds two parallel lists of index strikes and
    their projections onto the futures price scale. */
module KriyaFXIndexStrikes {
  import opened Snapshots
  import opened ChunkReassembly
  import RatioWindow

  // ---------------------------------------------------------------------------
  // The two strike lists

  /** The items carrying a `strike`, in input order. */
  function WithStrike(items: seq<StrikeItem>): (q: seq<StrikeItem>)
    ensures |q| <= |items|
    ensures forall i :: 0 <= i < |q| ==> q[i].strike.Some?
  {
    if items == [] then []
    else
      var rest := WithStrike(items[..|items| - 1]);
      var it := items[|items| - 1];
      if it.strike.Some? then rest + [it] else rest
  }

  /** The filter keeps every input item carrying a strike and adds nothing. */
  lemma {:induction false} WithStrikeKeepsEveryStrike(items: seq<StrikeItem>)
    ensures forall it :: it in items && it.strike.Some? ==> it in WithStrike(items)
    ensures forall it :: it in WithStrike(items) ==> it in items
  {
    if items != [] {
      WithStrikeKeepsEveryStrike(items[..|items| - 1]);
      assert items == items[..|items| - 1] + [items[|items| - 1]];
    }
  }

  /** `indexStrikes` and `strikeLevels`, always cleared and appended together. */
  datatype StrikeLists = StrikeLists(indexStrikes: seq<real>, strikeLevels: seq<real>)

  /** The `foreach` over `Data`, starting from cleared lists. */
  function ScanStrikes(items: seq<StrikeItem>, ratio: real): StrikeLists
  {
    if items == [] then StrikeLists([], [])
    else
      var r := ScanStrikes(items[..|items| - 1], ratio);
      var it := items[|items| - 1];
      if it.strike.Some? then
        StrikeLists(r.indexStrikes + [it.strike.value], r.strikeLevels + [FutureStrike(it.strike.value, ratio)])
      else r
  }

  /** The rebuilt lists have one entry per item carrying a `strike`, in input order,
      and each level is its index strike times the ratio. */
  lemma {:induction false} ScanFollowsStrikeItems(items: seq<StrikeItem>, ratio: real)
    ensures var r := ScanStrikes(items, ratio);
      var q := WithStrike(items);
      && |r.indexStrikes| == |q| && |r.strikeLevels| == |q|
      && (forall i :: 0 <= i < |q| ==> r.indexStrikes[i] == q[i].strike.value)
      && (forall i :: 0 <= i < |q| ==> r.strikeLevels[i] == FutureStrike(r.indexStrikes[i], ratio))
  {
    if items != [] {
      ScanFollowsStrikeItems(items[..|items| - 1], ratio);
    }
  }

  // ---------------------------------------------------------------------------
  // Snapshot ingestion

  /** Every field `ProcessOptionsData` and `UpdateRatio` read or write. */
  datatype State = State(
    lists: StrikeLists,
    futurePrice: real,
    indexPrice: real,
    ratioHistory: seq<real>,
    currentRatio: real,
    lastUpdateTimestamp: int,
    underlyingSymbol: Option<string>)

  const Initial := State(StrikeLists([], []), 0.0, 0.0, [], 0.0, 0, None)

  /** `UpdateRatio`: with both prices positive, the current ratio joins the window and
      the ratio in force becomes the window's mean. */
  function UpdatedRatio(st: State): State
  {
    if st.futurePrice > 0.0 && st.indexPrice > 0.0 then
      var h := RatioWindow.Push(st.ratioHistory, st.futurePrice / st.indexPrice);
      st.(ratioHistory := h, currentRatio := RatioWindow.Mean(h))
    else st
  }

  /** A selected chain with a new timestamp. */
  predicate Fresh(st: State, snap: Snapshot, selected: string)
  {
    && Selects(snap, selected)
    && UpdatedReadable(snap.options.value.symbols[selected])
    && UpdatedOrZero(snap.options.value.symbols[selected]) != st.lastUpdateTimestamp
  }

  /** `ProcessOptionsData` with `SelectedSymbol == selected`. Every early exit returns
      with no field written. */
  function Process(st: State, snap: Snapshot, selected: string): State
  {
    if !Fresh(st, snap, selected) then st
    else
      var chain := snap.options.value.symbols[selected];
      Ingest(st, chain, UpdatedOrZero(chain))
  }

  /** Everything after the timestamp check. A missing `Price` throws after the timestamp
      and the symbol are written; the `catch` only logs. */
  function Ingest(st: State, chain: Block, now: int): State
    requires chain.data.Some?
  {
    var s1 := Stamp(st, chain, now);
    if chain.price.None? then s1
    else
      var s2 := UpdatedRatio(s1.(indexPrice := chain.price.value));
      s2.(lists := ScanStrikes(chain.data.value, s2.currentRatio))
  }

  function Stamp(st: State, chain: Block, now: int): State
  {
    st.(lastUpdateTimestamp := now,
        underlyingSymbol := if chain.symbol.Some? then chain.symbol else st.underlyingSymbol)
  }

  /** A snapshot without `Options`, without an entry for the selected symbol, or whose
      entry lacks `Data`, returns before anything is written; so does a snapshot whose
      `Updated` equals the last one processed, and one whose `Updated` is outside the
      `long` range (`Convert.ToInt64` throws and the `catch` only logs). */
  lemma StaleSnapshotIsIgnored(st: State, snap: Snapshot, selected: string)
    requires !Fresh(st, snap, selected)
    ensures Process(st, snap, selected) == st
  {
  }

  /** The stored timestamp is always a `long`. */
  lemma StoredTimestampIsInt64(st: State, snap: Snapshot, selected: string)
    requires IsInt64(st.lastUpdateTimestamp)
    ensures IsInt64(Process(st, snap, selected).lastUpdateTimestamp)
  {
  }

  /** Delivering the same snapshot twice has the effect of delivering it once. */
  lemma ProcessIsIdempotent(st: State, snap: Snapshot, selected: string)
    ensures Process(Process(st, snap, selected), snap, selected) == Process(st, snap, selected)
  {
    if Fresh(st, snap, selected) {
      var r := Process(st, snap, selected);
      assert r.lastUpdateTimestamp == UpdatedOrZero(snap.options.value.symbols[selected]);
      assert !Fresh(r, snap, selected);
    }
  }

  /** The window holds at most 100 ratios and the ratio in force is their mean; 0 while
      the window is empty. */
  ghost predicate WindowHolds(st: State)
  {
    && |st.ratioHistory| <= RatioWindow.Capacity
    && (st.ratioHistory == [] ==> st.currentRatio == 0.0)
    && (st.ratioHistory != [] ==> st.currentRatio == RatioWindow.Mean(st.ratioHistory))
  }

  lemma InitialWindowHolds()
    ensures WindowHolds(Initial)
  {
  }

  /** Unlike the latched variant, every snapshot with a new timestamp and a `Price`
      updates the ratio again: the ratio of the current prices joins the window when
      both are positive, and nothing changes otherwise. */
  lemma FreshSnapshotUpdatesRatio(st: State, snap: Snapshot, selected: string)
    requires Fresh(st, snap, selected)
    ensures var r := Process(st, snap, selected);
      var price := snap.options.value.symbols[selected].price;
      && (price.Some? && st.futurePrice > 0.0 && price.value > 0.0 ==>
            r.ratioHistory == RatioWindow.Push(st.ratioHistory, st.futurePrice / price.value)
            && r.currentRatio == RatioWindow.Mean(r.ratioHistory))
      && (price.None? || st.futurePrice <= 0.0 || price.value <= 0.0 ==>
            r.ratioHistory == st.ratioHistory && r.currentRatio == st.currentRatio)
  {
  }

  /** Processing keeps the window within 100 ratios with the mean in force. */
  lemma ProcessKeepsWindow(st: State, snap: Snapshot, selected: string)
    requires WindowHolds(st)
    ensures WindowHolds(Process(st, snap, selected))
  {
    if Fresh(st, snap, selected) {
      FreshSnapshotUpdatesRatio(st, snap, selected);
    }
  }

  /** A snapshot with a new timestamp and a `Price` rebuilds both lists, one entry per
      item carrying a `strike`, each level projected by the ratio just computed. */
  lemma FreshSnapshotRebuildsLists(st: State, snap: Snapshot, selected: string)
    requires Fresh(st, snap, selected) && snap.options.value.symbols[selected].price.Some?
    ensures var r := Process(st, snap, selected);
      var q := WithStrike(snap.options.value.symbols[selected].data.value);
      && |r.lists.indexStrikes| == |q| && |r.lists.strikeLevels| == |q|
      && (forall i :: 0 <= i < |q| ==> r.lists.indexStrikes[i] == q[i].strike.value)
      && (forall i :: 0 <= i < |q| ==> r.lists.strikeLevels[i] == FutureStrike(r.lists.indexStrikes[i], r.currentRatio))
  {
    var chain := snap.options.value.symbols[selected];
    var s2 := UpdatedRatio(Stamp(st, chain, UpdatedOrZero(chain)).(indexPrice := chain.price.value));
    ScanFollowsStrikeItems(chain.data.value, s2.currentRatio);
  }

  /** Only an ask moves the futures price. */
  function MarketData(st: State, kind: MarketDataType, price: real): State
  {
    if kind == Ask then st.(futurePrice := price) else st
  }

  /** The routing of `ProcessReassembledMessage`. */
  function Dispatch(st: State, env: Envelope, selected: string): State
  {
    var payload := UpdatePayload(env);
    if payload.Some? then Process(st, payload.value, selected) else st
  }

  // ---------------------------------------------------------------------------
  // The indicator object

  class KriyaFXIndexStrikes {
    /** `strikeLevels` and `indexStrikes`. */
    var lists: StrikeLists
    var futurePrice: real
    var indexPrice: real
    /** The `Queue<double>`, oldest ratio first. */
    var ratioHistory: seq<real>
    var currentRatio: real
    var lastUpdateTimestamp: int
    var underlyingSymbol: Option<string>

    /** The `SelectedSymbol` property. */
    const selectedSymbol: string
    const messageChunks: ChunkBuffer

    ghost function View(): State
      reads this
    {
      State(lists, futurePrice, indexPrice, ratioHistory, currentRatio, lastUpdateTimestamp, underlyingSymbol)
    }

    constructor (selected: string)
      ensures View() == Initial && selectedSymbol == selected
      ensures fresh(messageChunks) && messageChunks.slots == []
    {
      lists := StrikeLists([], []);
      futurePrice, indexPrice := 0.0, 0.0;
      ratioHistory, currentRatio := [], 0.0;
      lastUpdateTimestamp, underlyingSymbol := 0, None;
      selectedSymbol := selected;
      messageChunks := new ChunkBuffer();
    }

    method OnMarketData(kind: MarketDataType, price: real)
      modifies this`futurePrice
      ensures View() == MarketData(old(View()), kind, price)
    {
      if kind == Ask {
        futurePrice := price;
      }
    }

    method UpdateRatio()
      modifies this`ratioHistory, this`currentRatio
      ensures View() == UpdatedRatio(old(View()))
    {
      if futurePrice > 0.0 && indexPrice > 0.0 {
        var newRatio := futurePrice / indexPrice;
        ratioHistory := ratioHistory + [newRatio];
        if |ratioHistory| > RatioWindow.Capacity {
          ratioHistory := ratioHistory[1..];
        }
        currentRatio := RatioWindow.Mean(ratioHistory);
      }
    }

    method ProcessOptionsData(snap: Snapshot)
      modifies this
      ensures View() == Process(old(View()), snap, selectedSymbol)
    {
      if snap.options.None? {
        return;
      }
      var options := snap.options.value;
      if selectedSymbol !in options.symbols {
        return;
      }
      var symbolData := options.symbols[selectedSymbol];
      if symbolData.data.None? {
        return;
      }
      var currentUpdateTimestamp := 0;
      if symbolData.updated.Some? {
        if !IsInt64(symbolData.updated.value) {
          return;  // Convert.ToInt64 throws; the catch only logs
        }
        currentUpdateTimestamp := symbolData.updated.value;
      }
      if currentUpdateTimestamp != lastUpdateTimestamp {
        lastUpdateTimestamp := currentUpdateTimestamp;
        if symbolData.symbol.Some? {
          underlyingSymbol := symbolData.symbol;
        }
        if symbolData.price.None? {
          return;  // symbolData["Price"] throws; the catch only logs
        }
        indexPrice := symbolData.price.value;
        UpdateRatio();
        RebuildStrikeLists(symbolData.data.value);
      }
    }

    /** The clearing of both lists and the `foreach` over `Data`. */
    method RebuildStrikeLists(items: seq<StrikeItem>)
      modifies this`lists
      ensures lists == ScanStrikes(items, currentRatio)
    {
      lists := StrikeLists([], []);
      var i := 0;
      while i < |items|
        invariant 0 <= i <= |items|
        invariant lists == ScanStrikes(items[..i], currentRatio)
      {
        var item := items[i];
        assert items[..i + 1][..i] == items[..i] && items[..i + 1][i] == item;
        if item.strike.Some? {
          var indexStrike := item.strike.value;
          var futureStrike := FutureStrike(indexStrike, currentRatio);
          lists := StrikeLists(lists.indexStrikes + [indexStrike], lists.strikeLevels + [futureStrike]);
        }
        i := i + 1;
      }
      assert items[..i] == items;
    }

    method ProcessReassembledMessage(env: Envelope)
      modifies this
      ensures View() == Dispatch(old(View()), env, selectedSymbol)
    {
      if env.kind == Some("update") {
        if env.data.Some? {
          ProcessOptionsData(env.data.value);
        }
      }
    }

    /** `decode` stands for the JSON deserialiser applied to the reassembled text. */
    method ProcessWebSocketMessage(m: ChunkMessage, raw: string, decode: string -> Envelope)
      modifies this, messageChunks
      ensures var step := Deliver(old(messageChunks.slots), m, raw);
        && messageChunks.slots == step.slots
        && View() == if step.forwarded.Some? then Dispatch(old(View()), decode(step.forwarded.value), selectedSymbol)
                     else old(View())
    {
      var forwarded := messageChunks.Receive(m, raw);
      if forwarded.Some? {
        ProcessReassembledMessage(decode(forwarded.value));
      }
    }
  }
}
