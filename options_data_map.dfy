/** KriyaFXOptionsDataMap.cs (class `KriyaFXOptionsMap`, single-chain variant with flow
    derivatives): snapshot ingestion with de-duplication, a once-only index-to-futures
    ratio and expected-move band, eight parallel per-strike lists, an EMA-smoothed
    velocity/acceleration tracker per projected strike, and one for the total ask
    volume. */
module KriyaFXOptionsDataMap {
  import opened Snapshots
  import opened ChunkReassembly

  /** The field `smoothingFactor` (0.4). The `SmoothingFactor` property, default 0.5,
      is never read by the computation. */
  const SmoothingFactor: real := 0.4

  // ---------------------------------------------------------------------------
  // Exponential smoothing

  /** One EMA sample: the first sample is the raw value, later ones blend the raw
      value with the previous average. */
  function Ema(previous: Option<real>, raw: real): (r: real)
    ensures previous.None? ==> r == raw
    ensures previous.Some? ==> Min(raw, previous.value) <= r <= Max(raw, previous.value)
    ensures previous.Some? && raw != previous.value ==> r != raw && r != previous.value
  {
    if previous.Some? then raw * SmoothingFactor + previous.value * (1.0 - SmoothingFactor) else raw
  }

  /** The average after `k` further samples of one constant raw value. */
  function Repeat(start: real, raw: real, k: nat): real
  {
    if k == 0 then start else Ema(Some(Repeat(start, raw, k - 1)), raw)
  }

  /** `d * 0.6^k`: a distance that keeps 60% of itself `k` times over. */
  function Shrunk(d: real, k: nat): real
  {
    if k == 0 then d else (1.0 - SmoothingFactor) * Shrunk(d, k - 1)
  }

  /** Each sample closes 40% of the distance between the average and the raw value. */
  lemma EmaStep(previous: real, raw: real)
    ensures Ema(Some(previous), raw) - raw == (1.0 - SmoothingFactor) * (previous - raw)
  {
  }

  /** Fed a constant signal, the average closes 40% of its remaining distance to it
      per sample: the distance after `k` samples is 0.6^k of the starting one. */
  lemma {:induction false} EmaApproachesConstant(start: real, raw: real, k: nat)
    ensures Repeat(start, raw, k) - raw == Shrunk(start - raw, k)
  {
    if k > 0 {
      EmaApproachesConstant(start, raw, k - 1);
      EmaStep(Repeat(start, raw, k - 1), raw);
    }
  }

  /** The remaining distance never grows, keeps its sign, and shrinks strictly while
      it is not zero. */
  lemma {:induction false} ShrunkDecreases(d: real, k: nat)
    ensures Abs(Shrunk(d, k)) <= Abs(d)
    ensures d > 0.0 ==> Shrunk(d, k) > 0.0
    ensures d < 0.0 ==> Shrunk(d, k) < 0.0
    ensures k > 0 && d != 0.0 ==> Abs(Shrunk(d, k)) < Abs(d)
  {
    if k > 0 {
      ShrunkDecreases(d, k - 1);
    }
  }

  function Lookup(m: map<real, real>, k: real): (r: Option<real>)
    ensures r.Some? <==> k in m
    ensures r.Some? ==> r.value == m[k]
  {
    if k in m then Some(m[k]) else None
  }

  // ---------------------------------------------------------------------------
  // Per-strike flow-derivative tracker

  /** The source's `NetAskVolumeData` record. */
  datatype NetAskVolumeData = NetAskVolumeData(
    netAskVolume: real, netAskVolumeTimestamp: int, velocity: real, velocityTimestamp: int)

  /** `previousNetAskVolumeData`, `emaVelocity` and `emaAcceleration`, keyed by projected strike. */
  datatype Tracker = Tracker(
    previous: map<real, NetAskVolumeData>,
    emaVelocity: map<real, real>,
    emaAcceleration: map<real, real>)

  datatype Smoothed = Smoothed(velocity: real, acceleration: real)

  datatype Observation = Observation(tracker: Tracker, smoothed: Smoothed)

  /** One qualifying item's pass through the tracker at time `now`. */
  function Observe(t: Tracker, strike: real, volume: real, now: int): (r: Observation)
    ensures r.tracker.previous == t.previous[strike := NetAskVolumeData(volume, now, r.smoothed.velocity, now)]
    ensures strike !in t.previous || now <= t.previous[strike].netAskVolumeTimestamp ==>
              r.smoothed == Smoothed(0.0, 0.0)
              && r.tracker.emaVelocity == t.emaVelocity && r.tracker.emaAcceleration == t.emaAcceleration
    ensures forall k :: k != strike ==> Lookup(r.tracker.emaVelocity, k) == Lookup(t.emaVelocity, k)
    ensures forall k :: k != strike ==> Lookup(r.tracker.emaAcceleration, k) == Lookup(t.emaAcceleration, k)
  {
    var zero := Smoothed(0.0, 0.0);
    var smoothed :=
      if strike in t.previous && now > t.previous[strike].netAskVolumeTimestamp then
        var p := t.previous[strike];
        var deltaT := Wrap64(now - p.netAskVolumeTimestamp) as real;
        if deltaT > 0.0 then
          var velocity := (volume - p.netAskVolume) / deltaT;
          var deltaVelocityTime := Wrap64(now - p.velocityTimestamp) as real;
          if deltaVelocityTime > 0.0 then
            var acceleration := (velocity - p.velocity) / deltaVelocityTime;
            Some(Smoothed(Ema(Lookup(t.emaVelocity, strike), velocity), Ema(Lookup(t.emaAcceleration, strike), acceleration)))
          else None
        else None
      else None;
    var record := NetAskVolumeData(volume, now, if smoothed.Some? then smoothed.value.velocity else 0.0, now);
    if smoothed.Some? then
      Observation(
        Tracker(t.previous[strike := record],
                t.emaVelocity[strike := smoothed.value.velocity],
                t.emaAcceleration[strike := smoothed.value.acceleration]),
        smoothed.value)
    else
      Observation(t.(previous := t.previous[strike := record]), zero)
  }

  /** Every record carries equal volume and velocity timestamps. */
  ghost predicate TimestampsAgree(t: Tracker)
  {
    forall k :: k in t.previous ==> t.previous[k].velocityTimestamp == t.previous[k].netAskVolumeTimestamp
  }

  /** With agreeing timestamps, a strike seen at an earlier time gets its velocity
      smoothed: the first time it equals the raw velocity, afterwards it lies between
      the raw velocity and the previous average; the acceleration likewise. When the
      `long` difference of the two timestamps wraps past `Int64Max` it comes out
      negative, and the strike reports (0, 0) with both averages untouched. */
  lemma StrikeSeenEarlierIsSmoothed(t: Tracker, strike: real, volume: real, now: int)
    requires TimestampsAgree(t)
    requires strike in t.previous && t.previous[strike].netAskVolumeTimestamp < now
    ensures now - t.previous[strike].netAskVolumeTimestamp <= Int64Max ==>
      var p := t.previous[strike];
      var raw := (volume - p.netAskVolume) / ((now - p.netAskVolumeTimestamp) as real);
      var r := Observe(t, strike, volume, now);
      && (strike !in t.emaVelocity ==> r.smoothed.velocity == raw)
      && (strike in t.emaVelocity ==>
            Min(raw, t.emaVelocity[strike]) <= r.smoothed.velocity <= Max(raw, t.emaVelocity[strike]))
      && var acc := (raw - p.velocity) / ((now - p.velocityTimestamp) as real);
      && (strike !in t.emaAcceleration ==> r.smoothed.acceleration == acc)
      && (strike in t.emaAcceleration ==>
            Min(acc, t.emaAcceleration[strike]) <= r.smoothed.acceleration <= Max(acc, t.emaAcceleration[strike]))
      && r.tracker.emaVelocity == t.emaVelocity[strike := r.smoothed.velocity]
      && r.tracker.emaAcceleration == t.emaAcceleration[strike := r.smoothed.acceleration]
      && TimestampsAgree(r.tracker)
    ensures Int64Max < now - t.previous[strike].netAskVolumeTimestamp <= Int64Max - Int64Min ==>
      var r := Observe(t, strike, volume, now);
      && r.smoothed == Smoothed(0.0, 0.0)
      && r.tracker.emaVelocity == t.emaVelocity && r.tracker.emaAcceleration == t.emaAcceleration
      && TimestampsAgree(r.tracker)
  {
  }

  // ---------------------------------------------------------------------------
  // The eight parallel per-strike lists

  datatype StrikeLists = StrikeLists(
    indexStrikes: seq<real>,
    strikeLevels: seq<real>,
    netAskVolumes: seq<real>,
    callAskVolumes: seq<real>,
    putAskVolumes: seq<real>,
    velocities: seq<real>,
    accelerations: seq<real>,
    netLiquidity: seq<real>)

  const NoLists := StrikeLists([], [], [], [], [], [], [], [])

  /** An item with `strike`, `Net_ASK_Volume`, `call` and `put`. */
  predicate Qualifies(it: StrikeItem)
  {
    it.strike.Some? && it.netAskVolume.Some? && it.call.Some? && it.put.Some?
  }

  /** The qualifying items, in input order. Each indicator file filters its own `Data`
      list under its own condition, so each module keeps its own copy. */
  function Qualifying(items: seq<StrikeItem>): (q: seq<StrikeItem>)
    ensures |q| <= |items|
    ensures forall i :: 0 <= i < |q| ==> Qualifies(q[i])
  {
    if items == [] then []
    else
      var rest := Qualifying(items[..|items| - 1]);
      var it := items[|items| - 1];
      if Qualifies(it) then rest + [it] else rest
  }

  /** The filter keeps every input item that qualifies and adds nothing. */
  lemma {:induction false} QualifyingKeepsEveryQualifier(items: seq<StrikeItem>)
    ensures forall it :: it in items && Qualifies(it) ==> it in Qualifying(items)
    ensures forall it :: it in Qualifying(items) ==> it in items
  {
    if items != [] {
      QualifyingKeepsEveryQualifier(items[..|items| - 1]);
      assert items == items[..|items| - 1] + [items[|items| - 1]];
    }
  }

  function Append(ls: StrikeLists, it: StrikeItem, futureStrike: real, d: Smoothed): StrikeLists
    requires Qualifies(it)
  {
    StrikeLists(
      ls.indexStrikes + [it.strike.value],
      ls.strikeLevels + [futureStrike],
      ls.netAskVolumes + [it.netAskVolume.value],
      ls.callAskVolumes + [OrZero(it.call.value.askVolume)],
      ls.putAskVolumes + [OrZero(it.put.value.askVolume)],
      ls.velocities + [d.velocity],
      ls.accelerations + [d.acceleration],
      ls.netLiquidity + [OrZero(it.netLiquidity)])
  }

  datatype Rebuilt = Rebuilt(tracker: Tracker, lists: StrikeLists)

  /** The `foreach` over the `Data` list, starting from cleared lists. */
  function Rebuild(t: Tracker, items: seq<StrikeItem>, ratio: real, now: int): Rebuilt
  {
    if items == [] then Rebuilt(t, NoLists)
    else
      RebuildStep(Rebuild(t, items[..|items| - 1], ratio, now), items[|items| - 1], ratio, now)
  }

  /** One pass of the `foreach` body. */
  function RebuildStep(r: Rebuilt, it: StrikeItem, ratio: real, now: int): Rebuilt
  {
    if !Qualifies(it) then r
    else
      var futureStrike := FutureStrike(it.strike.value, ratio);
      var o := Observe(r.tracker, futureStrike, it.netAskVolume.value, now);
      Rebuilt(o.tracker, Append(r.lists, it, futureStrike, o.smoothed))
  }

  /** All eight lists have length `n`. */
  ghost predicate Parallel(ls: StrikeLists, n: nat)
  {
    && |ls.indexStrikes| == n && |ls.strikeLevels| == n && |ls.netAskVolumes| == n
    && |ls.callAskVolumes| == n && |ls.putAskVolumes| == n && |ls.velocities| == n
    && |ls.accelerations| == n && |ls.netLiquidity| == n
  }

  /** Row `i` of the lists is taken from item `it`, projected by `ratio`. */
  ghost predicate RowFrom(ls: StrikeLists, i: nat, it: StrikeItem, ratio: real)
    requires Parallel(ls, |ls.indexStrikes|) && i < |ls.indexStrikes| && Qualifies(it)
  {
    && ls.indexStrikes[i] == it.strike.value
    && ls.strikeLevels[i] == it.strike.value * ratio
    && ls.netAskVolumes[i] == it.netAskVolume.value
    && ls.callAskVolumes[i] == OrZero(it.call.value.askVolume)
    && ls.putAskVolumes[i] == OrZero(it.put.value.askVolume)
    && ls.netLiquidity[i] == OrZero(it.netLiquidity)
  }

  /** The rebuilt lists have one row per qualifying item, in input order, each row
      holding that item's values with `strikeLevels[i] = indexStrikes[i] * ratio`. */
  lemma {:induction false} RebuildFollowsQualifyingItems(t: Tracker, items: seq<StrikeItem>, ratio: real, now: int)
    ensures var ls := Rebuild(t, items, ratio, now).lists;
      var q := Qualifying(items);
      && Parallel(ls, |q|)
      && forall i :: 0 <= i < |q| ==> RowFrom(ls, i, q[i], ratio)
  {
    if items != [] {
      RebuildFollowsQualifyingItems(t, items[..|items| - 1], ratio, now);
    }
  }

  /** The velocity and acceleration rows: appending an item to the input appends, for a
      qualifying item, the smoothed pair the tracker computes for its projected strike
      (from the tracker as the earlier items left it) and nothing else otherwise. */
  lemma RebuildSmoothsLastItem(t: Tracker, items: seq<StrikeItem>, it: StrikeItem, ratio: real, now: int)
    ensures var r := Rebuild(t, items, ratio, now);
      var r' := Rebuild(t, items + [it], ratio, now);
      && (!Qualifies(it) ==> r' == r)
      && (Qualifies(it) ==>
            var o := Observe(r.tracker, FutureStrike(it.strike.value, ratio), it.netAskVolume.value, now);
            && r'.tracker == o.tracker
            && r'.lists.velocities == r.lists.velocities + [o.smoothed.velocity]
            && r'.lists.accelerations == r.lists.accelerations + [o.smoothed.acceleration])
  {
    assert (items + [it])[..|items|] == items;
  }

  /** Every item of `q` has a record stamped `now` under its projected strike. */
  ghost predicate RecordedAt(tr: Tracker, q: seq<StrikeItem>, ratio: real, now: int)
  {
    forall i :: 0 <= i < |q| && q[i].strike.Some? ==>
      FutureStrike(q[i].strike.value, ratio) in tr.previous
      && tr.previous[FutureStrike(q[i].strike.value, ratio)].netAskVolumeTimestamp == now
  }

  /** Strikes that no item of `q` projects onto keep the records they had in `t`. */
  ghost predicate OthersKept(t: Tracker, tr: Tracker, q: seq<StrikeItem>, ratio: real)
  {
    forall k :: k in t.previous && (forall i :: 0 <= i < |q| && q[i].strike.Some? ==> FutureStrike(q[i].strike.value, ratio) != k) ==>
      k in tr.previous && tr.previous[k] == t.previous[k]
  }

  /** After the rebuild every qualifying item's projected strike has a record stamped
      `now`, strikes of no qualifying item keep their records, and timestamps still
      agree. */
  lemma {:induction false} RebuildRecordsEveryStrike(t: Tracker, items: seq<StrikeItem>, ratio: real, now: int)
    requires TimestampsAgree(t)
    ensures TimestampsAgree(Rebuild(t, items, ratio, now).tracker)
    ensures RecordedAt(Rebuild(t, items, ratio, now).tracker, Qualifying(items), ratio, now)
    ensures OthersKept(t, Rebuild(t, items, ratio, now).tracker, Qualifying(items), ratio)
  {
    if items != [] {
      var init := items[..|items| - 1];
      var it := items[|items| - 1];
      RebuildRecordsEveryStrike(t, init, ratio, now);
      var r := Rebuild(t, init, ratio, now);
      var q0 := Qualifying(init);
      if Qualifies(it) {
        var q := q0 + [it];
        assert Qualifying(items) == q;
        var key := FutureStrike(it.strike.value, ratio);
        var tr := Observe(r.tracker, key, it.netAskVolume.value, now).tracker;
        assert Rebuild(t, items, ratio, now).tracker == tr;
        assert tr.previous == r.tracker.previous[key := tr.previous[key]];
        assert RecordedAt(tr, q, ratio, now) by {
          forall i | 0 <= i < |q|
            ensures FutureStrike(q[i].strike.value, ratio) in tr.previous
            ensures tr.previous[FutureStrike(q[i].strike.value, ratio)].netAskVolumeTimestamp == now
          {
            if i < |q0| {
              assert q[i] == q0[i];
            }
          }
        }
        assert OthersKept(t, tr, q, ratio) by {
          forall k | k in t.previous && (forall i :: 0 <= i < |q| && q[i].strike.Some? ==> FutureStrike(q[i].strike.value, ratio) != k)
            ensures k in tr.previous && tr.previous[k] == t.previous[k]
          {
            assert q[|q0|] == it;
            forall i | 0 <= i < |q0| ensures FutureStrike(q0[i].strike.value, ratio) != k {
              assert q[i] == q0[i];
            }
          }
        }
      }
    }
  }

  // ---------------------------------------------------------------------------
  // Total ask volume tracker

  datatype Totals = Totals(
    totalAskVolume: real,
    totalVelocity: real,
    totalAcceleration: real,
    previousTotalAskVolume: real,
    previousTotalAskVolumeTimestamp: int,
    previousTotalVelocity: real,
    previousTotalVelocityTimestamp: int,
    emaTotalVelocity: real,
    emaTotalAcceleration: real,
    isTotalVelocityInitialized: bool,
    isTotalAccelerationInitialized: bool)

  const InitialTotals := Totals(0.0, 0.0, 0.0, 0.0, 0, 0.0, 0, 0.0, 0.0, false, false)

  /** The `Total_ASK_Volume` block at time `now`. */
  function AdvanceTotals(t: Totals, volume: real, now: int): (r: Totals)
    ensures r.totalAskVolume == volume
    ensures t.previousTotalAskVolumeTimestamp == 0 ==>
              && r.previousTotalAskVolume == volume && r.previousTotalAskVolumeTimestamp == now
              && r.totalVelocity == 0.0 && r.totalAcceleration == 0.0
              && r.isTotalVelocityInitialized && r.isTotalAccelerationInitialized
    ensures t.previousTotalAskVolumeTimestamp != 0 && now <= t.previousTotalAskVolumeTimestamp ==>
              r == t.(totalAskVolume := volume)
    ensures t.previousTotalAskVolumeTimestamp != 0 && now > t.previousTotalAskVolumeTimestamp ==>
              r.previousTotalAskVolume == volume && r.previousTotalAskVolumeTimestamp == now
  {
    var t1 := t.(totalAskVolume := volume);
    if t.previousTotalAskVolumeTimestamp == 0 then
      t1.(previousTotalAskVolume := volume, previousTotalAskVolumeTimestamp := now,
          totalVelocity := 0.0, totalAcceleration := 0.0,
          previousTotalVelocity := 0.0, previousTotalVelocityTimestamp := now,
          emaTotalVelocity := 0.0, emaTotalAcceleration := 0.0,
          isTotalVelocityInitialized := true, isTotalAccelerationInitialized := true)
    else if now > t.previousTotalAskVolumeTimestamp then
      var deltaT := Wrap64(now - t.previousTotalAskVolumeTimestamp) as real;
      var t2 :=
        if deltaT > 0.0 then
          var rawVelocity := (volume - t.previousTotalAskVolume) / deltaT;
          var deltaTVelocity := Wrap64(now - t.previousTotalVelocityTimestamp) as real;
          var rawAcceleration :=
            if now > t.previousTotalVelocityTimestamp && deltaTVelocity > 0.0
            then (rawVelocity - t.previousTotalVelocity) / deltaTVelocity else 0.0;
          var v := Ema(if t.isTotalVelocityInitialized then Some(t.emaTotalVelocity) else None, rawVelocity);
          var a := Ema(if t.isTotalAccelerationInitialized then Some(t.emaTotalAcceleration) else None, rawAcceleration);
          t1.(emaTotalVelocity := v, isTotalVelocityInitialized := true, totalVelocity := v,
              emaTotalAcceleration := a, isTotalAccelerationInitialized := true, totalAcceleration := a,
              previousTotalVelocity := rawVelocity, previousTotalVelocityTimestamp := now)
        else t1;
      t2.(previousTotalAskVolume := volume, previousTotalAskVolumeTimestamp := now)
    else t1
  }

  /** The velocity timestamp never runs ahead of the volume timestamp (it falls behind
      only when a wrapped difference skips the smoothing), and a non-zero timestamp
      means both averages are initialised. */
  ghost predicate TotalsConsistent(t: Totals)
  {
    && t.previousTotalVelocityTimestamp <= t.previousTotalAskVolumeTimestamp
    && (t.previousTotalAskVolumeTimestamp != 0 ==> t.isTotalVelocityInitialized && t.isTotalAccelerationInitialized)
  }

  /** The totals tracker keeps `TotalsConsistent`, so once the totals have advanced the
      smoothed total velocity and acceleration always blend the raw values with the
      previous averages (the "first sample" branch of the total EMA is never taken).
      The raw acceleration is taken over the time since the last smoothing, and is 0
      when that `long` difference wraps. When the difference since the last volume
      wraps, nothing is smoothed and only the previous volume and timestamp move. */
  lemma TotalsStayConsistent(t: Totals, volume: real, now: int)
    requires TotalsConsistent(t)
    ensures TotalsConsistent(AdvanceTotals(t, volume, now))
    ensures t.previousTotalAskVolumeTimestamp != 0 && 0 < now - t.previousTotalAskVolumeTimestamp <= Int64Max ==>
      var raw := (volume - t.previousTotalAskVolume) / ((now - t.previousTotalAskVolumeTimestamp) as real);
      var r := AdvanceTotals(t, volume, now);
      var sinceVelocity := now - t.previousTotalVelocityTimestamp;
      var acc := if sinceVelocity <= Int64Max then (raw - t.previousTotalVelocity) / (sinceVelocity as real) else 0.0;
      && Min(raw, t.emaTotalVelocity) <= r.totalVelocity <= Max(raw, t.emaTotalVelocity)
      && (sinceVelocity <= Int64Max - Int64Min ==>
            Min(acc, t.emaTotalAcceleration) <= r.totalAcceleration <= Max(acc, t.emaTotalAcceleration))
      && r.previousTotalVelocity == raw
      && r.previousTotalVelocityTimestamp == r.previousTotalAskVolumeTimestamp == now
    ensures t.previousTotalAskVolumeTimestamp != 0 && Int64Max < now - t.previousTotalAskVolumeTimestamp <= Int64Max - Int64Min ==>
      AdvanceTotals(t, volume, now)
        == t.(totalAskVolume := volume, previousTotalAskVolume := volume, previousTotalAskVolumeTimestamp := now)
  {
  }

  // ---------------------------------------------------------------------------
  // Snapshot ingestion

  /** Every field `ProcessOptionsData` reads or writes. */
  datatype State = State(
    lists: StrikeLists,
    tracker: Tracker,
    totals: Totals,
    futurePrice: real,
    indexPrice: real,
    expectedMove: real,
    isRatioCalculated: bool,
    fixedRatio: real,
    isExpectedMoveLevelsCalculated: bool,
    fixedExpectedMaxPrice: real,
    fixedExpectedMinPrice: real,
    totalGexVolume: real,
    totalLiquidity: real,
    isDataFetched: bool,
    lastUpdateTimestamp: int,
    underlyingSymbol: Option<string>)

  const Initial := State(NoLists, Tracker(map[], map[], map[]), InitialTotals,
                         0.0, 0.0, 0.0, false, 0.0, false, 0.0, 0.0, 0.0, 0.0, false, 0, None)

  /** `Options` is a dictionary holding `Data`. */
  predicate WellFormed(snap: Snapshot)
  {
    snap.options.Some? && snap.options.value.fields.data.Some?
  }

  /** `new DateTime(1970, 1, 1).AddSeconds(t)` lies in the years 1 to 9999 exactly when
      `EpochMin <= t <= EpochMax`; outside that range `AddSeconds` throws. */
  const EpochMin: int := -62135596800
  const EpochMax: int := 253402300799

  predicate EpochInRange(t: int)
  {
    EpochMin <= t <= EpochMax
  }

  /** A well-formed snapshot with a new timestamp and a `Price`, whose timestamp converts
      to a date whenever the ratio is still to be fixed: the whole body runs. */
  predicate Fresh(st: State, snap: Snapshot)
  {
    && WellFormed(snap)
    && UpdatedReadable(snap.options.value.fields)
    && UpdatedOrZero(snap.options.value.fields) != st.lastUpdateTimestamp
    && snap.price.Some?
    && (st.isRatioCalculated || EpochInRange(UpdatedOrZero(snap.options.value.fields)))
  }

  /** The ratio is fixed by dividing by `Price`; the model needs that divisor non-zero on
      the one path that divides by it. */
  predicate RatioDefined(st: State, snap: Snapshot)
  {
    Fresh(st, snap) && !st.isRatioCalculated ==> snap.price.value != 0.0
  }

  /** `ProcessOptionsData`, with `hostFuturePrice` the answer of
      `GetFuturePriceAtTimestamp` for the snapshot's timestamp. A missing `Price` throws
      after the timestamp, the symbol and (on the first snapshot) the futures price are
      written; so does a timestamp `AddSeconds` cannot convert while the ratio is still
      unset, before the futures price is written. */
  function Process(st: State, snap: Snapshot, hostFuturePrice: real): State
    requires RatioDefined(st, snap)
  {
    if !WellFormed(snap) then st.(isDataFetched := false)
    else
      var options := snap.options.value.fields;
      if !UpdatedReadable(options) then st.(isDataFetched := false)
      else
      var now := UpdatedOrZero(options);
      if now == st.lastUpdateTimestamp then st
      else Ingest(st, snap, now, hostFuturePrice)
  }

  /** Everything after the timestamp check, for a well-formed snapshot stamped `now`. */
  function Ingest(st: State, snap: Snapshot, now: int, hostFuturePrice: real): State
    requires WellFormed(snap)
    requires snap.price.Some? && !st.isRatioCalculated && EpochInRange(now) ==> snap.price.value != 0.0
  {
    var s1 := Stamp(st, snap.options.value.fields, now);
    if !st.isRatioCalculated && !EpochInRange(now) then s1.(isDataFetched := false)
    else if snap.price.None? then
      (if st.isRatioCalculated then s1 else s1.(futurePrice := hostFuturePrice)).(isDataFetched := false)
    else
      var price := snap.price.value;
      Refresh(ApplyExpectedMove(ApplyPrice(s1, price, hostFuturePrice), price, snap.expectedMove), snap.options.value.fields)
  }

  /** The snapshot's timestamp, and its `Symbol` when present, are recorded first. */
  function Stamp(st: State, options: Block, now: int): State
  {
    st.(lastUpdateTimestamp := now,
        underlyingSymbol := if options.symbol.Some? then options.symbol else st.underlyingSymbol)
  }

  /** The ratio block: the first priced snapshot fixes `fixedRatio` from the host's
      futures price; later ones derive the futures price from it. */
  function ApplyPrice(st: State, price: real, hostFuturePrice: real): State
    requires !st.isRatioCalculated ==> price != 0.0
  {
    if st.isRatioCalculated then st.(indexPrice := price, futurePrice := price * st.fixedRatio)
    else st.(futurePrice := hostFuturePrice, indexPrice := price,
             fixedRatio := hostFuturePrice / price, isRatioCalculated := true)
  }

  /** The `ExpectedMove` block: the band is fixed by the first snapshot carrying it. */
  function ApplyExpectedMove(st: State, price: real, move: Option<real>): State
  {
    if move.None? then st
    else if st.isExpectedMoveLevelsCalculated then st.(expectedMove := move.value, indexPrice := price)
    else st.(expectedMove := move.value, indexPrice := price,
             fixedExpectedMaxPrice := (price + move.value) * st.fixedRatio,
             fixedExpectedMinPrice := (price - move.value) * st.fixedRatio,
             isExpectedMoveLevelsCalculated := true)
  }

  /** The list rebuild, the aggregates and `isDataFetched`, at the state's timestamp
      and ratio. */
  function Refresh(st: State, options: Block): State
    requires options.data.Some?
  {
    var now := st.lastUpdateTimestamp;
    var rb := Rebuild(st.tracker, options.data.value, st.fixedRatio, now);
    st.(lists := rb.lists, tracker := rb.tracker,
        totals := if options.totalAskVolume.Some? then AdvanceTotals(st.totals, options.totalAskVolume.value, now) else st.totals,
        totalGexVolume := if options.totalGexVolume.Some? then options.totalGexVolume.value else st.totalGexVolume,
        totalLiquidity := if options.totalLiquidity.Some? then options.totalLiquidity.value else st.totalLiquidity,
        isDataFetched := true)
  }

  /** A snapshot without `Options`, with `Options` not a dictionary, or without `Data`
      clears `isDataFetched` and touches nothing else: no list is cleared. */
  lemma MalformedOnlyClearsFlag(st: State, snap: Snapshot, hostFuturePrice: real)
    requires RatioDefined(st, snap)
    requires !WellFormed(snap)
    ensures Process(st, snap, hostFuturePrice) == st.(isDataFetched := false)
  {
  }

  /** An `Updated` outside the `long` range makes `Convert.ToInt64` throw before the
      timestamp is compared or stored; the `catch` clears `isDataFetched` and nothing
      else changes. */
  lemma OverflowingTimestampOnlyClearsFlag(st: State, snap: Snapshot, hostFuturePrice: real)
    requires RatioDefined(st, snap)
    requires WellFormed(snap) && !UpdatedReadable(snap.options.value.fields)
    ensures Process(st, snap, hostFuturePrice) == st.(isDataFetched := false)
  {
  }

  /** So the stored timestamp is always a `long`. */
  lemma StoredTimestampIsInt64(st: State, snap: Snapshot, hostFuturePrice: real)
    requires RatioDefined(st, snap) && IsInt64(st.lastUpdateTimestamp)
    ensures IsInt64(Process(st, snap, hostFuturePrice).lastUpdateTimestamp)
  {
  }

  /** A snapshot whose `Updated` equals the last one processed changes nothing (the
      stored timestamp is a `long`, so an equal one converts without throwing). */
  lemma RepeatedTimestampIsSkipped(st: State, snap: Snapshot, hostFuturePrice: real)
    requires IsInt64(st.lastUpdateTimestamp)
    requires RatioDefined(st, snap)
    requires WellFormed(snap) && UpdatedOrZero(snap.options.value.fields) == st.lastUpdateTimestamp
    ensures Process(st, snap, hostFuturePrice) == st
  {
  }

  /** Delivering the same snapshot twice has the effect of delivering it once, whatever
      the host reports the second time. */
  lemma ProcessIsIdempotent(st: State, snap: Snapshot, h1: real, h2: real)
    requires RatioDefined(st, snap)
    ensures Process(Process(st, snap, h1), snap, h2) == Process(st, snap, h1)
  {
  }

  /** The ratio is fixed by the first snapshot that gets past the timestamp check and
      carries a price; from then on it never changes, and each later snapshot sets
      `futurePrice = indexPrice * fixedRatio`. */
  lemma RatioIsLatchedOnce(st: State, snap: Snapshot, hostFuturePrice: real)
    requires RatioDefined(st, snap)
    ensures var r := Process(st, snap, hostFuturePrice);
      && (st.isRatioCalculated ==> r.isRatioCalculated && r.fixedRatio == st.fixedRatio)
      && (st.isRatioCalculated && Fresh(st, snap) ==> r.futurePrice == snap.price.value * st.fixedRatio)
      && (!st.isRatioCalculated && Fresh(st, snap) ==>
            r.isRatioCalculated && r.fixedRatio == hostFuturePrice / snap.price.value && r.futurePrice == hostFuturePrice)
      && (!st.isRatioCalculated && !Fresh(st, snap) ==> !r.isRatioCalculated && r.fixedRatio == st.fixedRatio)
  {
  }

  /** While the ratio is unset, a new timestamp that `AddSeconds` cannot convert records
      the timestamp and symbol, clears `isDataFetched` and leaves the prices, the ratio
      and the lists as they were; the same snapshot delivered again is then skipped, so
      the ratio waits for a snapshot with another timestamp. */
  lemma OutOfRangeTimestampLeavesRatioUnset(st: State, snap: Snapshot, h1: real, h2: real)
    requires WellFormed(snap) && !st.isRatioCalculated && UpdatedReadable(snap.options.value.fields)
    requires var now := UpdatedOrZero(snap.options.value.fields);
      now != st.lastUpdateTimestamp && !EpochInRange(now)
    ensures var r := Process(st, snap, h1);
      && r.lastUpdateTimestamp == UpdatedOrZero(snap.options.value.fields)
      && !r.isDataFetched && !r.isRatioCalculated
      && r.futurePrice == st.futurePrice && r.indexPrice == st.indexPrice && r.fixedRatio == st.fixedRatio
      && r.lists == st.lists && r.tracker == st.tracker && r.totals == st.totals
      && Process(r, snap, h2) == r
  {
  }

  /** The expected-move band is set once, from the first fresh snapshot carrying
      `ExpectedMove`, as `(price ± move) * fixedRatio`, and never changes afterwards. */
  lemma ExpectedMoveIsLatchedOnce(st: State, snap: Snapshot, hostFuturePrice: real)
    requires RatioDefined(st, snap)
    ensures var r := Process(st, snap, hostFuturePrice);
      && (st.isExpectedMoveLevelsCalculated ==>
            r.isExpectedMoveLevelsCalculated
            && r.fixedExpectedMaxPrice == st.fixedExpectedMaxPrice
            && r.fixedExpectedMinPrice == st.fixedExpectedMinPrice)
      && (!st.isExpectedMoveLevelsCalculated && Fresh(st, snap) && snap.expectedMove.Some? ==>
            r.isExpectedMoveLevelsCalculated
            && r.fixedExpectedMaxPrice == (snap.price.value + snap.expectedMove.value) * r.fixedRatio
            && r.fixedExpectedMinPrice == (snap.price.value - snap.expectedMove.value) * r.fixedRatio)
  {
  }

  /** After a fresh snapshot the eight lists are parallel, one row per item carrying
      `strike`, `Net_ASK_Volume`, `call` and `put`, in input order, each strike level
      the index strike times the fixed ratio; `isDataFetched` is set. */
  lemma FreshSnapshotRebuildsLists(st: State, snap: Snapshot, hostFuturePrice: real)
    requires RatioDefined(st, snap)
    requires Fresh(st, snap)
    ensures var r := Process(st, snap, hostFuturePrice);
      var q := Qualifying(snap.options.value.fields.data.value);
      && r.isDataFetched
      && r.lastUpdateTimestamp == UpdatedOrZero(snap.options.value.fields)
      && Parallel(r.lists, |q|)
      && forall i :: 0 <= i < |q| ==> RowFrom(r.lists, i, q[i], r.fixedRatio)
  {
    var options := snap.options.value.fields;
    var ratio := if st.isRatioCalculated then st.fixedRatio else hostFuturePrice / snap.price.value;
    RebuildFollowsQualifyingItems(st.tracker, options.data.value, ratio, UpdatedOrZero(options));
  }

  /** The fields `Process` never writes back to their starting values. */
  ghost predicate LatchesInvariant(st: State)
  {
    && (!st.isRatioCalculated ==> !st.isExpectedMoveLevelsCalculated)
    && TotalsConsistent(st.totals)
    && TimestampsAgree(st.tracker)
  }

  /** Processing keeps the invariant: the expected-move band is never latched before
      the ratio, the totals stay consistent and tracker records stay coherent. */
  lemma ProcessKeepsInvariant(st: State, snap: Snapshot, hostFuturePrice: real)
    requires RatioDefined(st, snap)
    requires LatchesInvariant(st)
    ensures LatchesInvariant(Process(st, snap, hostFuturePrice))
  {
    if Fresh(st, snap) {
      var options := snap.options.value.fields;
      var ratio := if st.isRatioCalculated then st.fixedRatio else hostFuturePrice / snap.price.value;
      RebuildRecordsEveryStrike(st.tracker, options.data.value, ratio, UpdatedOrZero(options));
      if options.totalAskVolume.Some? {
        TotalsStayConsistent(st.totals, options.totalAskVolume.value, UpdatedOrZero(options));
      }
    }
  }

  /** The routing of `ProcessReassembledMessage`. */
  function Dispatch(st: State, env: Envelope, hostFuturePrice: real): State
    requires UsablePrice(st, env)
  {
    var payload := UpdatePayload(env);
    if payload.Some? then Process(st, payload.value, hostFuturePrice) else st
  }

  /** An `update` envelope's snapshot meets `RatioDefined`. */
  predicate UsablePrice(st: State, env: Envelope)
  {
    UpdatePayload(env).Some? ==> RatioDefined(st, UpdatePayload(env).value)
  }

  // ---------------------------------------------------------------------------
  // The indicator object

  class KriyaFXOptionsMap {
    /** `indexStrikes`, `strikeLevels`, `netAskVolumes`, `callAskVolumes`, `putAskVolumes`,
        `velocitiesList`, `accelerationsList` and `netLiquidityList`: always cleared and
        appended together, so held as one record. */
    var lists: StrikeLists
    /** `previousNetAskVolumeData`, `emaVelocity` and `emaAcceleration`. */
    var tracker: Tracker
    /** `totalAskVolume` and the ten fields of the total ask-volume tracker. */
    var totals: Totals

    var futurePrice: real
    var indexPrice: real
    var expectedMove: real
    var isRatioCalculated: bool
    var fixedRatio: real
    var isExpectedMoveLevelsCalculated: bool
    var fixedExpectedMaxPrice: real
    var fixedExpectedMinPrice: real
    var totalGexVolume: real
    var totalLiquidity: real
    var isDataFetched: bool
    var lastUpdateTimestamp: int
    var underlyingSymbol: Option<string>

    const messageChunks: ChunkBuffer

    ghost function View(): State
      reads this
    {
      State(lists, tracker, totals, futurePrice, indexPrice, expectedMove,
            isRatioCalculated, fixedRatio, isExpectedMoveLevelsCalculated,
            fixedExpectedMaxPrice, fixedExpectedMinPrice, totalGexVolume, totalLiquidity,
            isDataFetched, lastUpdateTimestamp, underlyingSymbol)
    }

    constructor ()
      ensures View() == Initial
      ensures fresh(messageChunks) && messageChunks.slots == []
    {
      lists := NoLists;
      tracker := Tracker(map[], map[], map[]);
      totals := InitialTotals;
      futurePrice, indexPrice, expectedMove := 0.0, 0.0, 0.0;
      isRatioCalculated, fixedRatio := false, 0.0;
      isExpectedMoveLevelsCalculated, fixedExpectedMaxPrice, fixedExpectedMinPrice := false, 0.0, 0.0;
      totalGexVolume, totalLiquidity := 0.0, 0.0;
      isDataFetched, lastUpdateTimestamp, underlyingSymbol := false, 0, None;
      messageChunks := new ChunkBuffer();
    }

    method ProcessOptionsData(snap: Snapshot, hostFuturePrice: real)
      requires RatioDefined(View(), snap)
      modifies this
      ensures View() == Process(old(View()), snap, hostFuturePrice)
    {
      if snap.options.None? {
        isDataFetched := false;
        return;
      }
      var options := snap.options.value.fields;
      if options.data.None? {
        isDataFetched := false;
        return;
      }
      var currentUpdateTimestamp := 0;
      if options.updated.Some? {
        if !IsInt64(options.updated.value) {
          isDataFetched := false;  // Convert.ToInt64 throws; the catch clears the flag
          return;
        }
        currentUpdateTimestamp := options.updated.value;
      }
      if currentUpdateTimestamp == lastUpdateTimestamp {
        return;
      }
      IngestSnapshot(snap, currentUpdateTimestamp, hostFuturePrice);
    }

    /** `ProcessOptionsData` past the timestamp check. */
    method IngestSnapshot(snap: Snapshot, currentUpdateTimestamp: int, hostFuturePrice: real)
      requires WellFormed(snap)
      requires snap.price.Some? && !isRatioCalculated && EpochInRange(currentUpdateTimestamp) ==> snap.price.value != 0.0
      modifies this
      ensures View() == Ingest(old(View()), snap, currentUpdateTimestamp, hostFuturePrice)
    {
      var options := snap.options.value.fields;
      ghost var stamped := Stamp(View(), options, currentUpdateTimestamp);
      lastUpdateTimestamp := currentUpdateTimestamp;
      if options.symbol.Some? {
        underlyingSymbol := options.symbol;
      }
      assert View() == stamped;
      if !isRatioCalculated && !EpochInRange(currentUpdateTimestamp) {
        isDataFetched := false;  // AddSeconds throws before the futures price is read
        return;
      }
      if snap.price.None? {
        if !isRatioCalculated {
          futurePrice := hostFuturePrice;
        }
        isDataFetched := false;  // data["Price"] throws; the catch clears the flag
        return;
      }
      IngestPriced(options, snap.price.value, snap.expectedMove, hostFuturePrice);
    }

    /** `ProcessOptionsData` once `Price` has been read. */
    method IngestPriced(options: Block, price: real, move: Option<real>, hostFuturePrice: real)
      requires options.data.Some? && (!isRatioCalculated ==> price != 0.0)
      modifies this
      ensures View() == Refresh(ApplyExpectedMove(ApplyPrice(old(View()), price, hostFuturePrice), price, move), options)
    {
      ghost var s1 := ApplyPrice(View(), price, hostFuturePrice);
      UpdatePrices(price, hostFuturePrice);
      assert View() == s1;
      if move.Some? {
        UpdateExpectedMove(price, move.value);
      }
      assert View() == ApplyExpectedMove(s1, price, move);
      RefreshStrikes(options);
    }

    /** The ratio block of `ProcessOptionsData` once `Price` has been read. */
    method UpdatePrices(price: real, hostFuturePrice: real)
      requires !isRatioCalculated ==> price != 0.0
      modifies this`futurePrice, this`indexPrice, this`fixedRatio, this`isRatioCalculated
      ensures var r := ApplyPrice(old(View()), price, hostFuturePrice);
        && futurePrice == r.futurePrice && indexPrice == r.indexPrice
        && fixedRatio == r.fixedRatio && isRatioCalculated == r.isRatioCalculated
    {
      if !isRatioCalculated {
        futurePrice := hostFuturePrice;
        indexPrice := price;
        fixedRatio := futurePrice / indexPrice;
        isRatioCalculated := true;
      } else {
        indexPrice := price;
        futurePrice := indexPrice * fixedRatio;
      }
    }

    /** The `ExpectedMove` block of `ProcessOptionsData`. */
    method UpdateExpectedMove(price: real, move: real)
      modifies this`expectedMove, this`indexPrice, this`fixedExpectedMaxPrice,
               this`fixedExpectedMinPrice, this`isExpectedMoveLevelsCalculated
      ensures var r := ApplyExpectedMove(old(View()), price, Some(move));
        && expectedMove == r.expectedMove && indexPrice == r.indexPrice
        && fixedExpectedMaxPrice == r.fixedExpectedMaxPrice && fixedExpectedMinPrice == r.fixedExpectedMinPrice
        && isExpectedMoveLevelsCalculated == r.isExpectedMoveLevelsCalculated
    {
      expectedMove := move;
      indexPrice := price;
      if !isExpectedMoveLevelsCalculated {
        fixedExpectedMaxPrice := (indexPrice + expectedMove) * fixedRatio;
        fixedExpectedMinPrice := (indexPrice - expectedMove) * fixedRatio;
        isExpectedMoveLevelsCalculated := true;
      }
    }

    /** The rest of `ProcessOptionsData`: the list rebuild, the aggregates and the flag. */
    method RefreshStrikes(options: Block)
      requires options.data.Some?
      modifies this`lists, this`tracker, this`totals, this`totalGexVolume, this`totalLiquidity, this`isDataFetched
      ensures var r := Refresh(old(View()), options);
        && lists == r.lists && tracker == r.tracker && totals == r.totals
        && totalGexVolume == r.totalGexVolume && totalLiquidity == r.totalLiquidity
        && isDataFetched == r.isDataFetched
    {
      RebuildStrikeLists(options.data.value);
      if options.totalAskVolume.Some? {
        AdvanceTotalAskVolume(options.totalAskVolume.value);
      }
      if options.totalGexVolume.Some? {
        totalGexVolume := options.totalGexVolume.value;
      }
      if options.totalLiquidity.Some? {
        totalLiquidity := options.totalLiquidity.value;
      }
      isDataFetched := true;
    }

    /** One qualifying item's velocity/acceleration update, keyed by its projected strike. */
    method TrackStrike(futureStrike: real, netAskVolume: real) returns (smoothedVelocity: real, smoothedAcceleration: real)
      modifies this`tracker
      ensures Observation(tracker, Smoothed(smoothedVelocity, smoothedAcceleration))
              == Observe(old(tracker), futureStrike, netAskVolume, lastUpdateTimestamp)
    {
      smoothedVelocity := 0.0;
      smoothedAcceleration := 0.0;
      if futureStrike in tracker.previous {
        var previousData := tracker.previous[futureStrike];
        if lastUpdateTimestamp > previousData.netAskVolumeTimestamp {
          var deltaV := netAskVolume - previousData.netAskVolume;
          var deltaT := Wrap64(lastUpdateTimestamp - previousData.netAskVolumeTimestamp) as real;
          if deltaT > 0.0 {
            var velocity := deltaV / deltaT;
            var deltaVelocityTime := Wrap64(lastUpdateTimestamp - previousData.velocityTimestamp) as real;
            if deltaVelocityTime > 0.0 {
              var acceleration := (velocity - previousData.velocity) / deltaVelocityTime;
              if futureStrike in tracker.emaVelocity {
                smoothedVelocity := velocity * SmoothingFactor + tracker.emaVelocity[futureStrike] * (1.0 - SmoothingFactor);
              } else {
                smoothedVelocity := velocity;
              }
              tracker := tracker.(emaVelocity := tracker.emaVelocity[futureStrike := smoothedVelocity]);
              if futureStrike in tracker.emaAcceleration {
                smoothedAcceleration := acceleration * SmoothingFactor + tracker.emaAcceleration[futureStrike] * (1.0 - SmoothingFactor);
              } else {
                smoothedAcceleration := acceleration;
              }
              tracker := tracker.(emaAcceleration := tracker.emaAcceleration[futureStrike := smoothedAcceleration]);
            }
          }
        }
      }
      tracker := tracker.(previous := tracker.previous[futureStrike :=
        NetAskVolumeData(netAskVolume, lastUpdateTimestamp, smoothedVelocity, lastUpdateTimestamp)]);
    }

    /** The `foreach` body for one item carrying `strike`, `Net_ASK_Volume`, `call` and `put`. */
    method AppendItem(item: StrikeItem)
      requires Qualifies(item)
      modifies this`lists, this`tracker
      ensures Rebuilt(tracker, lists) == RebuildStep(old(Rebuilt(tracker, lists)), item, fixedRatio, lastUpdateTimestamp)
    {
      var indexStrike := item.strike.value;
      var futureStrike := FutureStrike(indexStrike, fixedRatio);
      var netAskVolume := item.netAskVolume.value;
      var callAskVolume := if item.call.value.askVolume.Some? then item.call.value.askVolume.value else 0.0;
      var putAskVolume := if item.put.value.askVolume.Some? then item.put.value.askVolume.value else 0.0;
      var netLiquidity := if item.netLiquidity.Some? then item.netLiquidity.value else 0.0;
      var smoothedVelocity, smoothedAcceleration := TrackStrike(futureStrike, netAskVolume);
      lists := lists.(
        indexStrikes := lists.indexStrikes + [indexStrike],
        strikeLevels := lists.strikeLevels + [futureStrike],
        netAskVolumes := lists.netAskVolumes + [netAskVolume],
        callAskVolumes := lists.callAskVolumes + [callAskVolume],
        putAskVolumes := lists.putAskVolumes + [putAskVolume],
        velocities := lists.velocities + [smoothedVelocity],
        accelerations := lists.accelerations + [smoothedAcceleration],
        netLiquidity := lists.netLiquidity + [netLiquidity]);
    }

    /** The clearing of the eight lists and the `foreach` over `Data`. */
    method RebuildStrikeLists(items: seq<StrikeItem>)
      modifies this`lists, this`tracker
      ensures Rebuilt(tracker, lists) == Rebuild(old(tracker), items, fixedRatio, lastUpdateTimestamp)
    {
      lists := NoLists;
      ghost var start := tracker;
      var i := 0;
      while i < |items|
        invariant 0 <= i <= |items|
        invariant Rebuilt(tracker, lists) == Rebuild(start, items[..i], fixedRatio, lastUpdateTimestamp)
      {
        var item := items[i];
        assert items[..i + 1][..i] == items[..i] && items[..i + 1][i] == item;
        if item.strike.Some? && item.netAskVolume.Some? && item.call.Some? && item.put.Some? {
          AppendItem(item);
        }
        i := i + 1;
      }
      assert items[..i] == items;
    }

    /** The `Total_ASK_Volume` block. */
    method AdvanceTotalAskVolume(volume: real)
      modifies this`totals
      ensures totals == AdvanceTotals(old(totals), volume, lastUpdateTimestamp)
    {
      totals := totals.(totalAskVolume := volume);
      if totals.previousTotalAskVolumeTimestamp == 0 {
        totals := totals.(previousTotalAskVolume := totals.totalAskVolume,
                          previousTotalAskVolumeTimestamp := lastUpdateTimestamp,
                          totalVelocity := 0.0, totalAcceleration := 0.0,
                          previousTotalVelocity := 0.0, previousTotalVelocityTimestamp := lastUpdateTimestamp,
                          emaTotalVelocity := 0.0, emaTotalAcceleration := 0.0,
                          isTotalVelocityInitialized := true, isTotalAccelerationInitialized := true);
      } else if lastUpdateTimestamp > totals.previousTotalAskVolumeTimestamp {
        var deltaV := totals.totalAskVolume - totals.previousTotalAskVolume;
        var deltaT := Wrap64(lastUpdateTimestamp - totals.previousTotalAskVolumeTimestamp) as real;
        if deltaT > 0.0 {
          SmoothTotals(deltaV / deltaT);
        }
        totals := totals.(previousTotalAskVolume := totals.totalAskVolume,
                          previousTotalAskVolumeTimestamp := lastUpdateTimestamp);
      }
    }

    /** The smoothing step of the `Total_ASK_Volume` block, given the raw total velocity. */
    method SmoothTotals(rawTotalVelocity: real)
      modifies this`totals
      ensures var t := old(totals);
        var deltaTVelocity := Wrap64(lastUpdateTimestamp - t.previousTotalVelocityTimestamp) as real;
        var rawTotalAcceleration :=
          if lastUpdateTimestamp > t.previousTotalVelocityTimestamp && deltaTVelocity > 0.0
          then (rawTotalVelocity - t.previousTotalVelocity) / deltaTVelocity else 0.0;
        var v := Ema(if t.isTotalVelocityInitialized then Some(t.emaTotalVelocity) else None, rawTotalVelocity);
        var a := Ema(if t.isTotalAccelerationInitialized then Some(t.emaTotalAcceleration) else None, rawTotalAcceleration);
        totals == t.(emaTotalVelocity := v, isTotalVelocityInitialized := true, totalVelocity := v,
                     emaTotalAcceleration := a, isTotalAccelerationInitialized := true, totalAcceleration := a,
                     previousTotalVelocity := rawTotalVelocity, previousTotalVelocityTimestamp := lastUpdateTimestamp)
    {
      var rawTotalAcceleration := 0.0;
      if lastUpdateTimestamp > totals.previousTotalVelocityTimestamp {
        var deltaVelocity := rawTotalVelocity - totals.previousTotalVelocity;
        var deltaTVelocity := Wrap64(lastUpdateTimestamp - totals.previousTotalVelocityTimestamp) as real;
        if deltaTVelocity > 0.0 {
          rawTotalAcceleration := deltaVelocity / deltaTVelocity;
        }
      }
      if totals.isTotalVelocityInitialized {
        totals := totals.(emaTotalVelocity := rawTotalVelocity * SmoothingFactor + totals.emaTotalVelocity * (1.0 - SmoothingFactor));
      } else {
        totals := totals.(emaTotalVelocity := rawTotalVelocity, isTotalVelocityInitialized := true);
      }
      totals := totals.(totalVelocity := totals.emaTotalVelocity);
      if totals.isTotalAccelerationInitialized {
        totals := totals.(emaTotalAcceleration := rawTotalAcceleration * SmoothingFactor + totals.emaTotalAcceleration * (1.0 - SmoothingFactor));
      } else {
        totals := totals.(emaTotalAcceleration := rawTotalAcceleration, isTotalAccelerationInitialized := true);
      }
      totals := totals.(totalAcceleration := totals.emaTotalAcceleration,
                        previousTotalVelocity := rawTotalVelocity,
                        previousTotalVelocityTimestamp := lastUpdateTimestamp);
    }

    method ProcessReassembledMessage(env: Envelope, hostFuturePrice: real)
      requires UsablePrice(View(), env)
      modifies this
      ensures View() == Dispatch(old(View()), env, hostFuturePrice)
    {
      if env.kind == Some("update") {
        if env.data.Some? {
          ProcessOptionsData(env.data.value, hostFuturePrice);
        }
      }
    }

    /** `decode` stands for the JSON deserialiser applied to the reassembled text; text
        it cannot parse decodes to an envelope without a type. */
    method ProcessWebSocketMessage(m: ChunkMessage, raw: string, decode: string -> Envelope, hostFuturePrice: real)
      requires var step := Deliver(messageChunks.slots, m, raw);
        step.forwarded.Some? ==> UsablePrice(View(), decode(step.forwarded.value))
      modifies this, messageChunks
      ensures var step := Deliver(old(messageChunks.slots), m, raw);
        && messageChunks.slots == step.slots
        && View() == if step.forwarded.Some? then Dispatch(old(View()), decode(step.forwarded.value), hostFuturePrice)
                     else old(View())
    {
      var forwarded := messageChunks.Receive(m, raw);
      if forwarded.Some? {
        ProcessReassembledMessage(decode(forwarded.value), hostFuturePrice);
      }
    }
  }
}
