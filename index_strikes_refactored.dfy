/** IndexStrikesRefactored.cs (class `KriyaFXOptionsData`, timer-driven variant): a
    snapshot rebuilds three parallel lists (index strikes, their projections onto the
    futures price scale by the ratio `(ask - TickSize) / Price`, and net ask volumes);
    a ten-second timer later refreshes only the volumes of the strikes already listed. */
module IndexStrikesRefactored {
  import opened Snapshots

  // ---------------------------------------------------------------------------
  // The three lists

  /** An item with `strike` and `Net_ASK_Volume`. */
  predicate Qualifies(it: StrikeItem)
  {
    it.strike.Some? && it.netAskVolume.Some?
  }

  /** The qualifying items, in input order. Each indicator file filters its own `Data`
      list under its own condition, so each module keeps its own copy. */
  function Qualifying(items: seq<StrikeItem>): (q: seq<StrikeItem>)
    ensures |q| <= |items|
    ensures forall i :: 0 <= i < |q| ==> Qualifies(q[i])
  {
    if items == [] then []
    else
      var rest := Qualifying(items[..|items| - 1]);
      var it := items[|items| - 1];
      if Qualifies(it) then rest + [it] else rest
  }

  /** The filter keeps every input item that qualifies and adds nothing. */
  lemma {:induction false} QualifyingKeepsEveryQualifier(items: seq<StrikeItem>)
    ensures forall it :: it in items && Qualifies(it) ==> it in Qualifying(items)
    ensures forall it :: it in Qualifying(items) ==> it in items
  {
    if items != [] {
      QualifyingKeepsEveryQualifier(items[..|items| - 1]);
      assert items == items[..|items| - 1] + [items[|items| - 1]];
    }
  }

  datatype StrikeLists = StrikeLists(indexStrikes: seq<real>, strikeLevels: seq<real>, netAskVolumes: seq<real>)

  /** The `foreach` of `ProcessOptionsData`, starting from cleared lists. */
  function ScanItems(items: seq<StrikeItem>, ratio: real): StrikeLists
  {
    if items == [] then StrikeLists([], [], [])
    else
      var r := ScanItems(items[..|items| - 1], ratio);
      var it := items[|items| - 1];
      if Qualifies(it) then
        StrikeLists(r.indexStrikes + [it.strike.value],
                    r.strikeLevels + [FutureStrike(it.strike.value, ratio)],
                    r.netAskVolumes + [it.netAskVolume.value])
      else r
  }

  /** Row `i` of the lists is taken from item `it`. */
  ghost predicate RowFrom(ls: StrikeLists, i: nat, it: StrikeItem, ratio: real)
    requires i < |ls.indexStrikes| && i < |ls.strikeLevels| && i < |ls.netAskVolumes| && Qualifies(it)
  {
    && ls.indexStrikes[i] == it.strike.value
    && ls.strikeLevels[i] == FutureStrike(it.strike.value, ratio)
    && ls.netAskVolumes[i] == it.netAskVolume.value
  }

  /** The rebuilt lists have one row per qualifying item, in input order. */
  lemma {:induction false} ScanFollowsQualifyingItems(items: seq<StrikeItem>, ratio: real)
    ensures var r := ScanItems(items, ratio);
      var q := Qualifying(items);
      && |r.indexStrikes| == |q| && |r.strikeLevels| == |q| && |r.netAskVolumes| == |q|
      && forall i :: 0 <= i < |q| ==> RowFrom(r, i, q[i], ratio)
  {
    if items != [] {
      ScanFollowsQualifyingItems(items[..|items| - 1], ratio);
    }
  }

  /** The `foreach` of `UpdateVolumes`: the volume of each qualifying item whose strike
      is exactly one of `strikes` (`IndexOf(indexStrike) != -1`). */
  function MatchedVolumes(items: seq<StrikeItem>, strikes: seq<real>): seq<real>
  {
    if items == [] then []
    else
      var rest := MatchedVolumes(items[..|items| - 1], strikes);
      var it := items[|items| - 1];
      if Qualifies(it) && it.strike.value in strikes then rest + [it.netAskVolume.value] else rest
  }

  /** The qualifying items whose strike is listed, in input order. */
  function Matching(items: seq<StrikeItem>, strikes: seq<real>): (q: seq<StrikeItem>)
    ensures |q| <= |items|
    ensures forall i :: 0 <= i < |q| ==> Qualifies(q[i]) && q[i].strike.value in strikes
  {
    if items == [] then []
    else
      var rest := Matching(items[..|items| - 1], strikes);
      var it := items[|items| - 1];
      if Qualifies(it) && it.strike.value in strikes then rest + [it] else rest
  }

  /** The filter keeps every input item that qualifies with a listed strike and adds nothing. */
  lemma {:induction false} MatchingKeepsEveryListedItem(items: seq<StrikeItem>, strikes: seq<real>)
    ensures forall it :: it in items && Qualifies(it) && it.strike.value in strikes ==> it in Matching(items, strikes)
    ensures forall it :: it in Matching(items, strikes) ==> it in items
  {
    if items != [] {
      MatchingKeepsEveryListedItem(items[..|items| - 1], strikes);
      assert items == items[..|items| - 1] + [items[|items| - 1]];
    }
  }

  /** The refreshed volumes are those of the matching items, in input order; items
      whose strike is not listed are skipped, so nothing ties the new volumes to the
      rows of the strikes they belong to. */
  lemma {:induction false} VolumesFollowMatchingItems(items: seq<StrikeItem>, strikes: seq<real>)
    ensures var v := MatchedVolumes(items, strikes);
      var q := Matching(items, strikes);
      && |v| == |q|
      && forall i :: 0 <= i < |q| ==> v[i] == q[i].netAskVolume.value
  {
    if items != [] {
      VolumesFollowMatchingItems(items[..|items| - 1], strikes);
    }
  }

  /** The strike of every qualifying item is listed after the rebuild. */
  lemma {:induction false} ScanListsEveryStrike(items: seq<StrikeItem>, ratio: real)
    ensures forall i :: 0 <= i < |items| && Qualifies(items[i]) ==>
      items[i].strike.value in ScanItems(items, ratio).indexStrikes
  {
    if items != [] {
      var n := |items| - 1;
      ScanListsEveryStrike(items[..n], ratio);
      forall i | 0 <= i < |items| && Qualifies(items[i])
        ensures items[i].strike.value in ScanItems(items, ratio).indexStrikes
      {
        if i < n {
          assert items[..n][i] == items[i];
        }
      }
    }
  }

  /** Volumes refreshed from the same items that built the lists reproduce the volumes
      the rebuild stored. */
  lemma {:induction false} SameDataReproducesVolumes(items: seq<StrikeItem>, ratio: real)
    ensures MatchedVolumes(items, ScanItems(items, ratio).indexStrikes) == ScanItems(items, ratio).netAskVolumes
  {
    ScanListsEveryStrike(items, ratio);
    MatchedAllListed(items, ScanItems(items, ratio).indexStrikes, ratio);
  }

  /** When every qualifying item's strike is listed, the refreshed volumes are all
      qualifying volumes. */
  lemma {:induction false} MatchedAllListed(items: seq<StrikeItem>, strikes: seq<real>, ratio: real)
    requires forall i :: 0 <= i < |items| && Qualifies(items[i]) ==> items[i].strike.value in strikes
    ensures MatchedVolumes(items, strikes) == ScanItems(items, ratio).netAskVolumes
  {
    if items != [] {
      var n := |items| - 1;
      assert forall i :: 0 <= i < n ==> items[..n][i] == items[i];
      MatchedAllListed(items[..n], strikes, ratio);
    }
  }

  // ---------------------------------------------------------------------------
  // Snapshot ingestion

  datatype State = State(
    lists: StrikeLists,
    futurePrice: real,
    indexPrice: real,
    ratio: real,
    strikeLevelsCalculated: bool)

  const Initial := State(StrikeLists([], [], []), 0.0, 0.0, 0.0, false)

  /** `Options` is a dictionary holding `Data`. */
  predicate HasData(snap: Snapshot)
  {
    snap.options.Some? && snap.options.value.fields.data.Some?
  }

  /** `ProcessOptionsData`. `ask` stands for the host's `GetCurrentAsk()` and `tickSize`
      for the instrument's `TickSize`. The lists are cleared and the futures price is
      written before the top-level `Price` is read; a missing `Price` throws there and
      the `catch` only logs. */
  function Process(st: State, snap: Snapshot, ask: real, tickSize: real): State
    requires HasData(snap) && snap.price.Some? ==> snap.price.value != 0.0
  {
    if !HasData(snap) then st
    else
      var futurePrice := ask - tickSize;
      var s := st.(lists := StrikeLists([], [], []), futurePrice := futurePrice);
      if snap.price.None? then s
      else
        var ratio := futurePrice / snap.price.value;
        s.(indexPrice := snap.price.value, ratio := ratio,
           lists := ScanItems(snap.options.value.fields.data.value, ratio))
  }

  /** A snapshot without `Options` or without `Data` returns before the lists are cleared. */
  lemma MissingDataChangesNothing(st: State, snap: Snapshot, ask: real, tickSize: real)
    requires !HasData(snap)
    ensures Process(st, snap, ask, tickSize) == st
  {
  }

  /** A snapshot with `Data` and `Price` recomputes the ratio from the current ask and
      rebuilds the three lists, one row per qualifying item; the timer flag is untouched. */
  lemma SnapshotRebuildsLists(st: State, snap: Snapshot, ask: real, tickSize: real)
    requires HasData(snap) && snap.price.Some? && snap.price.value != 0.0
    ensures var r := Process(st, snap, ask, tickSize);
      var q := Qualifying(snap.options.value.fields.data.value);
      && r.futurePrice == ask - tickSize && r.indexPrice == snap.price.value
      && r.ratio == (ask - tickSize) / snap.price.value
      && r.strikeLevelsCalculated == st.strikeLevelsCalculated
      && |r.lists.indexStrikes| == |q| && |r.lists.strikeLevels| == |q| && |r.lists.netAskVolumes| == |q|
      && forall i :: 0 <= i < |q| ==> RowFrom(r.lists, i, q[i], r.ratio)
  {
    var ratio := (ask - tickSize) / snap.price.value;
    ScanFollowsQualifyingItems(snap.options.value.fields.data.value, ratio);
  }

  /** `UpdateVolumes`: only `netAskVolumes` is replaced. */
  function UpdatedVolumes(st: State, snap: Snapshot): State
  {
    if !HasData(snap) then st
    else st.(lists := st.lists.(netAskVolumes := MatchedVolumes(snap.options.value.fields.data.value, st.lists.indexStrikes)))
  }

  /** A volume refresh from the snapshot the lists were built from leaves the lists as
      they were. */
  lemma RefreshFromSameSnapshotKeepsLists(st: State, snap: Snapshot, ask: real, tickSize: real)
    requires HasData(snap) && snap.price.Some? && snap.price.value != 0.0
    ensures var r := Process(st, snap, ask, tickSize);
      UpdatedVolumes(r, snap) == r
  {
    var r := Process(st, snap, ask, tickSize);
    SameDataReproducesVolumes(snap.options.value.fields.data.value, r.ratio);
  }

  // ---------------------------------------------------------------------------
  // The timer

  /** `TimeSpan` ticks per second. */
  const TicksPerSecond: int := 10000000

  /** `marketOpenTime.TimeOfDay`: 15:30. */
  const MarketOpen: int := (15 * 3600 + 30 * 60) * TicksPerSecond

  datatype TimerAction = CalculateStrikeLevels | UpdateNetAskVolumes | Idle

  /** The branch `OnTimerElapsed` takes, given the flag and the time of day in ticks. */
  function TimerDecision(strikeLevelsCalculated: bool, timeOfDay: int): (r: TimerAction)
    ensures r == CalculateStrikeLevels <==> !strikeLevelsCalculated && timeOfDay >= MarketOpen
    ensures r == UpdateNetAskVolumes <==> strikeLevelsCalculated
    ensures r == Idle <==> !strikeLevelsCalculated && timeOfDay < MarketOpen
  {
    if !strikeLevelsCalculated && timeOfDay >= MarketOpen then CalculateStrikeLevels
    else if strikeLevelsCalculated then UpdateNetAskVolumes
    else Idle
  }

  /** One timer tick. `fetched` is what `FetchLatestOptionsData` returned (`None` for
      `null` or a request that threw). `ProcessStrikeLevels` has an empty body, so a
      calculation only sets the flag. */
  function Tick(st: State, timeOfDay: int, fetched: Option<Snapshot>): State
  {
    match TimerDecision(st.strikeLevelsCalculated, timeOfDay)
    case CalculateStrikeLevels => if fetched.Some? then st.(strikeLevelsCalculated := true) else st
    case UpdateNetAskVolumes => if fetched.Some? then UpdatedVolumes(st, fetched.value) else st
    case Idle => st
  }

  /** The flag is set only by a tick at or after 15:30 whose fetch returned data, and
      once set it stays set; before it is set a tick changes nothing else. */
  lemma FlagSetOnlyByFetchAfterOpen(st: State, timeOfDay: int, fetched: Option<Snapshot>)
    ensures var r := Tick(st, timeOfDay, fetched);
      && (st.strikeLevelsCalculated ==> r.strikeLevelsCalculated)
      && (!st.strikeLevelsCalculated && r.strikeLevelsCalculated ==> timeOfDay >= MarketOpen && fetched.Some?)
      && (!st.strikeLevelsCalculated ==> r.(strikeLevelsCalculated := false) == st)
      && (st.strikeLevelsCalculated ==>
            r.lists.indexStrikes == st.lists.indexStrikes && r.lists.strikeLevels == st.lists.strikeLevels)
  {
  }

  // ---------------------------------------------------------------------------
  // Plotting and colour

  /** The guard of `PlotStrikeLevels`. */
  predicate Plottable(ls: StrikeLists)
  {
    |ls.strikeLevels| != 0 && |ls.indexStrikes| == |ls.strikeLevels| && |ls.netAskVolumes| == |ls.strikeLevels|
  }

  /** A rebuild with at least one qualifying item can be plotted. */
  lemma RebuildIsPlottable(st: State, snap: Snapshot, ask: real, tickSize: real)
    requires HasData(snap) && snap.price.Some? && snap.price.value != 0.0
    requires Qualifying(snap.options.value.fields.data.value) != []
    ensures Plottable(Process(st, snap, ask, tickSize).lists)
  {
    SnapshotRebuildsLists(st, snap, ask, tickSize);
  }

  /** `GetColorForNetAskVolume` normalises by 30000. */
  const MaxVolume: real := 30000.0

  datatype Band = Blue | Red | Green

  /** The band `GetColorForNetAskVolume` picks from the volume clamped to [-1, 1];
      the gradient intensity inside a band is not modelled. */
  function VolumeBand(netAskVolume: real): (r: Band)
    ensures var n := Max(-1.0, Min(1.0, netAskVolume / MaxVolume));
      && -1.0 <= n <= 1.0
      && (r == Blue <==> Abs(n) < 0.1)
      && (r == Red <==> Abs(n) >= 0.1 && n < 0.0)
      && (r == Green <==> Abs(n) >= 0.1 && n >= 0.0)
  {
    var n := Max(-1.0, Min(1.0, netAskVolume / MaxVolume));
    if Abs(n) < 0.1 then Blue else if n < 0.0 then Red else Green
  }

  /** The clamp never changes the band: it is blue strictly inside ±3000, red from
      -3000 down and green from 3000 up. */
  lemma BandByVolume(netAskVolume: real)
    ensures VolumeBand(netAskVolume) == Blue <==> -3000.0 < netAskVolume < 3000.0
    ensures VolumeBand(netAskVolume) == Red <==> netAskVolume <= -3000.0
    ensures VolumeBand(netAskVolume) == Green <==> netAskVolume >= 3000.0
  {
    var n := Max(-1.0, Min(1.0, netAskVolume / MaxVolume));
    assert netAskVolume / MaxVolume * MaxVolume == netAskVolume;
    if netAskVolume >= 3000.0 {
      assert n >= 0.1;
    } else if netAskVolume <= -3000.0 {
      assert n <= -0.1;
    } else {
      assert -0.1 < n < 0.1;
    }
  }

  /** One plotted row: the level, the index strike and the band of its volume. */
  datatype PlotRow = PlotRow(strikeLevel: real, indexStrike: real, band: Band)

  /** The rows `PlotStrikeLevels` draws: none unless the guard passes, otherwise one per
      index, in order. */
  function Plotted(ls: StrikeLists): (rows: seq<PlotRow>)
    ensures rows != [] <==> Plottable(ls)
    ensures Plottable(ls) ==>
      && |rows| == |ls.strikeLevels|
      && forall i :: 0 <= i < |rows| ==>
           rows[i] == PlotRow(ls.strikeLevels[i], ls.indexStrikes[i], VolumeBand(ls.netAskVolumes[i]))
  {
    if !Plottable(ls) then []
    else seq(|ls.strikeLevels|, i requires 0 <= i < |ls.strikeLevels| =>
               PlotRow(ls.strikeLevels[i], ls.indexStrikes[i], VolumeBand(ls.netAskVolumes[i])))
  }

  // ---------------------------------------------------------------------------
  // The indicator object

  class KriyaFXOptionsData {
    var strikeLevels: seq<real>
    var indexStrikes: seq<real>
    var netAskVolumes: seq<real>
    var futurePrice: real
    var indexPrice: real
    var ratio: real
    var strikeLevelsCalculated: bool

    ghost function View(): State
      reads this
    {
      State(StrikeLists(indexStrikes, strikeLevels, netAskVolumes), futurePrice, indexPrice, ratio, strikeLevelsCalculated)
    }

    constructor ()
      ensures View() == Initial
    {
      strikeLevels, indexStrikes, netAskVolumes := [], [], [];
      futurePrice, indexPrice, ratio := 0.0, 0.0, 0.0;
      strikeLevelsCalculated := false;
    }

    /** `ask` is the host's `GetCurrentAsk()`, `tickSize` the instrument's `TickSize`. */
    method ProcessOptionsData(snap: Snapshot, ask: real, tickSize: real)
      requires HasData(snap) && snap.price.Some? ==> snap.price.value != 0.0
      modifies this
      ensures View() == Process(old(View()), snap, ask, tickSize)
    {
      if snap.options.None? {
        return;
      }
      var options := snap.options.value.fields;
      if options.data.None? {
        return;
      }
      var optionsData := options.data.value;
      strikeLevels := [];
      indexStrikes := [];
      netAskVolumes := [];
      futurePrice := ask - tickSize;
      if snap.price.None? {
        return;  // data["Price"] throws; the catch only logs
      }
      indexPrice := snap.price.value;
      ratio := futurePrice / indexPrice;
      RebuildStrikeLists(optionsData);
    }

    /** The `foreach` over `Data`, appending to the cleared lists. */
    method RebuildStrikeLists(optionsData: seq<StrikeItem>)
      requires indexStrikes == [] && strikeLevels == [] && netAskVolumes == []
      modifies this`indexStrikes, this`strikeLevels, this`netAskVolumes
      ensures StrikeLists(indexStrikes, strikeLevels, netAskVolumes) == ScanItems(optionsData, ratio)
    {
      var i := 0;
      while i < |optionsData|
        invariant 0 <= i <= |optionsData|
        invariant StrikeLists(indexStrikes, strikeLevels, netAskVolumes) == ScanItems(optionsData[..i], ratio)
      {
        var item := optionsData[i];
        assert optionsData[..i + 1][..i] == optionsData[..i] && optionsData[..i + 1][i] == item;
        if item.strike.Some? && item.netAskVolume.Some? {
          var indexStrike := item.strike.value;
          var futureStrike := FutureStrike(indexStrike, ratio);
          var netAskVolume := item.netAskVolume.value;
          indexStrikes := indexStrikes + [indexStrike];
          strikeLevels := strikeLevels + [futureStrike];
          netAskVolumes := netAskVolumes + [netAskVolume];
        }
        i := i + 1;
      }
      assert optionsData[..i] == optionsData;
    }

    /** `timeOfDay` is `DateTime.Now.TimeOfDay` in ticks; `fetched` is the result of the
        one `FetchLatestOptionsData` call the chosen branch makes. */
    method OnTimerElapsed(timeOfDay: int, fetched: Option<Snapshot>)
      modifies this`netAskVolumes, this`strikeLevelsCalculated
      ensures View() == Tick(old(View()), timeOfDay, fetched)
    {
      if !strikeLevelsCalculated && timeOfDay >= MarketOpen {
        CalculateStrikeLevels(fetched);
      } else if strikeLevelsCalculated {
        UpdateNetAskVolumes(fetched);
      }
    }

    method CalculateStrikeLevels(fetched: Option<Snapshot>)
      modifies this`strikeLevelsCalculated
      ensures strikeLevelsCalculated == (old(strikeLevelsCalculated) || fetched.Some?)
    {
      if fetched.Some? {
        ProcessStrikeLevels(fetched.value);
        strikeLevelsCalculated := true;
      }
    }

    /** The source's body is empty: it changes nothing. */
    method ProcessStrikeLevels(data: Snapshot)
    {
    }

    method UpdateNetAskVolumes(fetched: Option<Snapshot>)
      modifies this`netAskVolumes
      ensures fetched.Some? ==> View() == UpdatedVolumes(old(View()), fetched.value)
      ensures fetched.None? ==> netAskVolumes == old(netAskVolumes)
    {
      if fetched.Some? {
        UpdateVolumes(fetched.value);
      }
    }

    method UpdateVolumes(snap: Snapshot)
      modifies this`netAskVolumes
      ensures View() == UpdatedVolumes(old(View()), snap)
    {
      if snap.options.None? {
        return;
      }
      var options := snap.options.value.fields;
      if options.data.None? {
        return;
      }
      var optionsData := options.data.value;
      netAskVolumes := [];
      var i := 0;
      while i < |optionsData|
        invariant 0 <= i <= |optionsData|
        invariant netAskVolumes == MatchedVolumes(optionsData[..i], indexStrikes)
      {
        var item := optionsData[i];
        assert optionsData[..i + 1][..i] == optionsData[..i] && optionsData[..i + 1][i] == item;
        if item.strike.Some? && item.netAskVolume.Some? {
          var indexStrike := item.strike.value;
          var netAskVolume := item.netAskVolume.value;
          var index := IndexOf(indexStrikes, indexStrike);
          if index != -1 {
            netAskVolumes := netAskVolumes + [netAskVolume];
          }
        }
        i := i + 1;
      }
      assert optionsData[..i] == optionsData;
    }
  }

  /** `List<double>.IndexOf`: the first index holding `x`, or -1. */
  method IndexOf(s: seq<real>, x: real) returns (index: int)
    ensures index == -1 <==> x !in s
    ensures index != -1 ==> 0 <= index < |s| && s[index] == x && x !in s[..index]
  {
    index := 0;
    while index < |s|
      invariant 0 <= index <= |s|
      invariant x !in s[..index]
    {
      if s[index] == x {
        return;
      }
      assert s[..index + 1] == s[..index] + [s[index]];
      index := index + 1;
    }
    assert s[..index] == s;
    index := -1;
  }
}
