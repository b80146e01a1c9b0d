# KriyaFX option-chain indicators, modelled in Dafny

The repository is a set of NinjaTrader chart indicators written in C#. They read
option-chain snapshots of an index and draw the index's strikes on a futures chart.
There are two sources:

- the KriyaFX WebSocket and REST service;
- for one indicator, the marketdata.app quote service.

Each strike is moved onto the futures price scale by a ratio of futures price to index
price. Depending on the variant, the indicator also keeps:

- the net ask volume of each strike;
- the call and put ask volumes;
- the probability of touch;
- net GEX extremes;
- a once-only expected-move band;
- exponentially smoothed velocity and acceleration of the flows.

The model covers five indicators. Each is its own module and a class holding the fields
the source updates in place:

| module | source file | variant |
|---|---|---|
| `KriyaFXOptionsDataMap` | KriyaFXOptionsDataMap.cs | single chain; fixed ratio from the host's futures price; EMA flow tracker |
| `KriyaFXOptionsMap` | KriyaFXOptionsMap.cs | selected symbol; ratio latched from the first ask; GEX extremes |
| `KriyaFXIndexStrikes` | KriyaFXIndexStrikes.cs | selected symbol; ratio = mean of the last 100 ratios |
| `IndexStrikesRefactored` | IndexStrikesRefactored.cs | ratio from the current ask; ten-second timer that refreshes volumes |
| `IndexStrikes` | IndexStrikes.cs | marketdata.app quote; a ladder of 21 strikes around the index price |

Three modules are shared:

- `Snapshots` holds the decoded JSON snapshot as records whose optional fields stand
  for "the key is present".
- `ChunkReassembly` is the chunked-message buffer that the three WebSocket indicators
  copy verbatim.
- `RatioWindow` is the bounded queue of ratios and its mean.

Each `ProcessOptionsData` method is proved against a pure function `Process` on a
`State` record. The method's `ensures View() == Process(old(View()), ...)` connects
them, and lemmas about `Process` state what the indicator promises:

- a repeated timestamp is skipped;
- processing is idempotent;
- the ratio and the band are latched;
- the rebuilt lists are parallel, one row per qualifying item, in input order;
- the GEX levels sit at the first strict extremes;
- the ratio window holds the newest 100 ratios.

Things the model takes as parameters:

- host callbacks: `GetFuturePriceAtTimestamp`, `GetCurrentAsk() - TickSize` and
  `DateTime.Now.TimeOfDay`;
- the outcomes of HTTP requests;
- the JSON decoder, passed as a function from text to envelope.

Where the source contradicts its own comments, the model follows the code. For example,
`CheckMarketStatusAsync` hard-codes the market as open, and `ProcessStrikeLevels` has
an empty body.

## Model

| member | source | states |
|---|---|---|
| Snapshots.Wrap64 | KriyaFXOptionsDataMap.cs:439 | An unchecked `long` subtraction: the result is a `long`, equals the exact difference when that fits, and is the exact difference minus 2^64 (so negative) when it exceeds `Int64Max` |
| Snapshots.UpdatePayload | KriyaFXOptionsMap.cs:941-963 | A reassembled message reaches `ProcessOptionsData` exactly when its type is "update" and it carries `data`, and then it passes that payload unchanged |
| ChunkReassembly.ChunkBuffer.Receive | KriyaFXOptionsMap.cs:901-939 | One frame's effect on the chunk list and what is forwarded equals `Deliver`. Any other frame passes through. A chunk missing a field, with an index or total outside the `int` range, or with a negative index is dropped. Otherwise the list is padded with nulls, the slot is stored, and the join is forwarded and the list cleared once the non-null count equals `totalChunks` |
| ChunkReassembly.PresentAfterStore | KriyaFXOptionsMap.cs:913-920 | Storing a chunk raises the non-null count by one exactly when its slot was new or null |
| ChunkReassembly.PartialReassembly | KriyaFXOptionsMap.cs:906-925 | Before the last chunk of a message arrives, nothing is forwarded and the list holds exactly the chunks received, each at its index |
| ChunkReassembly.DeliverLast | KriyaFXOptionsMap.cs:920-925 | The last chunk completes the count: the concatenation of all parts is forwarded and the list is emptied |
| ChunkReassembly.ReassemblesInIndexOrder | KriyaFXOptionsMap.cs:901-939 | Chunks of one message (at most 2^31 - 1 of them) arriving in any order, each index once, into an empty buffer yield one forwarded message: the parts joined in index order. The buffer ends empty |
| ChunkReassembly.OverflowingChunkIsDropped | KriyaFXOptionsMap.cs:908-909 | A chunk whose index or total overflows `Convert.ToInt32` is dropped and the buffer is unchanged |
| ChunkReassembly.NonChunkPassesThrough | KriyaFXOptionsMap.cs:927-932 | A frame whose type is not "chunk" is forwarded as received, and the buffer is unchanged |
| RatioWindow.Push | KriyaFXOptionsMap.cs:278-281 | Enqueue then dequeue past 100: the new ratio is last, the window never exceeds 100, below capacity it only appends, at capacity it drops the oldest |
| RatioWindow.WindowHoldsNewest | KriyaFXIndexStrikes.cs:171-182 | After any sequence of pushes, the window is exactly the newest 100 ratios of everything pushed, oldest first |
| RatioWindow.FirstPush | KriyaFXOptionsMap.cs:278-283 | The first ratio pushed is the whole window and its average |
| RatioWindow.MeanWithin | KriyaFXOptionsMap.cs:283 | The average of the window lies between any lower and upper bound of its entries |
| KriyaFXOptionsDataMap.Ema | KriyaFXOptionsDataMap.cs:453-477 | The first sample is the raw value. A later one lies between the raw value and the previous average, and equals neither when they differ |
| KriyaFXOptionsDataMap.EmaApproachesConstant | KriyaFXOptionsDataMap.cs:126 | Fed a constant signal, the average's distance to it after k samples is 0.6^k of the starting distance |
| KriyaFXOptionsDataMap.ShrunkDecreases | KriyaFXOptionsDataMap.cs:126 | That distance never grows and keeps its sign. It shrinks strictly while it is non-zero |
| KriyaFXOptionsDataMap.Observe | KriyaFXOptionsDataMap.cs:427-496 | Tracker update for one strike. The strike's record becomes (volume, now, smoothed velocity, now). With no earlier record, or a timestamp that did not advance, the smoothed values are 0 and the EMA maps are untouched. Time differences are `long` subtractions that wrap (`Wrap64`), so smoothing also needs a positive wrapped difference. Other strikes' averages never change |
| KriyaFXOptionsDataMap.StrikeSeenEarlierIsSmoothed | KriyaFXOptionsDataMap.cs:430-477 | A strike recorded at most `Int64Max` earlier gets velocity (volume - previous volume) / dt and acceleration (velocity - previous velocity) / dt. For each, the first smoothing equals the raw value and later ones lie between it and the previous average. Both averages are stored, and timestamps stay in step. When the `long` difference wraps past `Int64Max`, the strike reports (0, 0) and both averages are untouched |
| KriyaFXOptionsDataMap.QualifyingKeepsEveryQualifier | KriyaFXOptionsDataMap.cs:409-412 | Every input item carrying strike, Net_ASK_Volume, call and put is kept, and nothing else is added |
| KriyaFXOptionsDataMap.RebuildFollowsQualifyingItems | KriyaFXOptionsDataMap.cs:400-507 | The eight lists are parallel, with one row per item carrying strike, Net_ASK_Volume, call and put, in input order. In the six value lists each row holds that item's values, with level = strike × fixedRatio and a missing ASK_Volume or Net_Liquidity read as 0 |
| KriyaFXOptionsDataMap.RebuildSmoothsLastItem | KriyaFXOptionsDataMap.cs:427-507 | Each qualifying item appends to the velocity and acceleration lists the smoothed pair the tracker computes for its projected strike, from the tracker as the earlier items left it; an item that does not qualify changes nothing |
| KriyaFXOptionsDataMap.RebuildRecordsEveryStrike | KriyaFXOptionsDataMap.cs:489-496 | After the rebuild every qualifying item's projected strike has a record stamped now. Strikes of no qualifying item keep their records, and volume and velocity timestamps still agree |
| KriyaFXOptionsDataMap.AdvanceTotals | KriyaFXOptionsDataMap.cs:511-596 | Total_ASK_Volume is always stored. The first time it initialises the tracker with zero velocity and acceleration. A timestamp that did not advance changes nothing else. An advancing one moves the previous volume and timestamp forward. Time differences are `long` subtractions that wrap (`Wrap64`) |
| KriyaFXOptionsDataMap.TotalsStayConsistent | KriyaFXOptionsDataMap.cs:515-585 | The velocity timestamp never runs ahead of the volume timestamp, and both averages are initialised once a timestamp is set. So, once the timestamp advances by at most `Int64Max`, the smoothed total velocity lies between the raw velocity and its previous average. The smoothed total acceleration lies between its previous average and the raw acceleration: the velocity change over the time since the last smoothing, or 0 when that difference wraps. Both timestamps then meet at now. An advance that wraps past `Int64Max` smooths nothing and only moves the previous volume and timestamp |
| KriyaFXOptionsDataMap.MalformedOnlyClearsFlag | KriyaFXOptionsDataMap.cs:326-339 | A snapshot without Options, or without Data, only clears isDataFetched |
| KriyaFXOptionsDataMap.OverflowingTimestampOnlyClearsFlag | KriyaFXOptionsDataMap.cs:341-345 | An Updated outside the long range makes Convert.ToInt64 throw before the timestamp is compared or stored; the catch (lines 630-634) clears isDataFetched and nothing else changes |
| KriyaFXOptionsDataMap.StoredTimestampIsInt64 | KriyaFXOptionsDataMap.cs:341-350 | The stored lastUpdateTimestamp stays within the long range |
| KriyaFXOptionsDataMap.RepeatedTimestampIsSkipped | KriyaFXOptionsDataMap.cs:341-350 | A snapshot whose Updated equals the last one processed (a long) changes nothing |
| KriyaFXOptionsDataMap.ProcessIsIdempotent | KriyaFXOptionsDataMap.cs:341-350 | Delivering the same snapshot twice has the effect of delivering it once, whatever the host's futures price the second time |
| KriyaFXOptionsDataMap.OutOfRangeTimestampLeavesRatioUnset | KriyaFXOptionsDataMap.cs:348-366 | While the ratio is unset, a new Updated outside the years 1 to 9999 makes AddSeconds throw: the timestamp is stored, isDataFetched is cleared, and prices, ratio, lists and trackers are unchanged. The same snapshot again is then skipped |
| KriyaFXOptionsDataMap.RatioIsLatchedOnce | KriyaFXOptionsDataMap.cs:358-377 | The first fresh priced snapshot fixes fixedRatio = host futures price / index price, and it never changes afterwards. Later snapshots set futurePrice = price × fixedRatio. Without a fresh priced snapshot the ratio stays unlatched |
| KriyaFXOptionsDataMap.ExpectedMoveIsLatchedOnce | KriyaFXOptionsDataMap.cs:381-395 | The band is set once, to (price ± move) × fixedRatio, by the first fresh snapshot carrying ExpectedMove. After that it never changes |
| KriyaFXOptionsDataMap.FreshSnapshotRebuildsLists | KriyaFXOptionsDataMap.cs:397-609 | A fresh snapshot stamps its timestamp, sets isDataFetched, and rebuilds the eight parallel lists from the qualifying items at the fixed ratio |
| KriyaFXOptionsDataMap.ProcessKeepsInvariant | KriyaFXOptionsDataMap.cs:319-632 | Processing preserves three facts: the band is never latched before the ratio, the total tracker stays consistent, and tracker records keep equal timestamps |
| KriyaFXOptionsDataMap.Lookup | KriyaFXOptionsDataMap.cs:454-470 | The dictionary lookup: present exactly for keys in the map, with that key's value |
| KriyaFXOptionsDataMap.KriyaFXOptionsMap.ProcessOptionsData | KriyaFXOptionsDataMap.cs:319-632 | The method's effect on every field it touches equals `Process`. A zero Price is excluded only on the snapshot that fixes the ratio |
| KriyaFXOptionsDataMap.KriyaFXOptionsMap.RebuildStrikeLists | KriyaFXOptionsDataMap.cs:400-508 | The clearing and the loop over Data leave the lists and tracker equal to `Rebuild` of the items at the fixed ratio and current timestamp |
| KriyaFXOptionsDataMap.KriyaFXOptionsMap.TrackStrike | KriyaFXOptionsDataMap.cs:427-496 | The loop body's tracker update and returned smoothed pair equal `Observe` |
| KriyaFXOptionsDataMap.KriyaFXOptionsMap.AdvanceTotalAskVolume | KriyaFXOptionsDataMap.cs:511-596 | The Total_ASK_Volume block equals `AdvanceTotals` |
| KriyaFXOptionsDataMap.KriyaFXOptionsMap.ProcessReassembledMessage | KriyaFXOptionsDataMap.cs:1103-1125 | Only an "update" message carrying data is processed; anything else changes nothing |
| KriyaFXOptionsDataMap.KriyaFXOptionsMap.ProcessWebSocketMessage | KriyaFXOptionsDataMap.cs:1063-1101 | The chunk buffer steps as `Deliver`, and a forwarded text is decoded and dispatched. Only a forwarded update that fixes the ratio must not carry a zero Price |
| KriyaFXOptionsMap.ArgMax | KriyaFXOptionsMap.cs:380-422 | A running `>` scan from double.MinValue keeps the first index of the greatest value, and none for an empty list |
| KriyaFXOptionsMap.ArgMin | KriyaFXOptionsMap.cs:380-422 | A running `<` scan from double.MaxValue keeps the first index of the least value, and none for an empty list |
| KriyaFXOptionsMap.QualifyingKeepsEveryQualifier | KriyaFXOptionsMap.cs:385-388 | Every input item carrying strike, Net_ASK_Volume, call, put and Net_GEX_Volume is kept, and nothing else is added |
| KriyaFXOptionsMap.ScanFindsExtremes | KriyaFXOptionsMap.cs:385-433 | The loop keeps the first qualifying item with the greatest Net_GEX_Volume and the first with the least |
| KriyaFXOptionsMap.ScanBuildsParallelLists | KriyaFXOptionsMap.cs:371-433 | The seven lists are parallel, with one row per item carrying the five keys, in input order. Level = strike × currentRatio, and a missing ASK_Volume or ProbabilityOfTouch is read as 0 |
| KriyaFXOptionsMap.BandFor | KriyaFXOptionsMap.cs:550-588 | Red iff the dominant side volume exceeds the threshold and net < 0. Green iff it exceeds the threshold and net ≥ 0. Yellow iff it lies strictly between alert and threshold. Blue otherwise, including exactly at the threshold |
| KriyaFXOptionsMap.BandIgnoresSides | KriyaFXOptionsMap.cs:558 | The colour depends on the call and put volumes only through their magnitudes, and is symmetric in them |
| KriyaFXOptionsMap.MissingChainOnlyClearsFlag | KriyaFXOptionsMap.cs:294-323 | Missing Options, a missing selected symbol, or an entry without Data only clears isDataFetched |
| KriyaFXOptionsMap.OverflowingTimestampOnlyClearsFlag | KriyaFXOptionsMap.cs:325-329 | An Updated outside the long range makes Convert.ToInt64 throw before the timestamp is compared or stored; the catch (lines 471-475) clears isDataFetched and nothing else changes |
| KriyaFXOptionsMap.StoredTimestampIsInt64 | KriyaFXOptionsMap.cs:325-335 | The stored lastUpdateTimestamp stays within the long range |
| KriyaFXOptionsMap.RepeatedTimestampIsSkipped | KriyaFXOptionsMap.cs:325-335 | A chain whose Updated equals the last one processed (a long) changes nothing |
| KriyaFXOptionsMap.InitialRatioLatched | KriyaFXOptionsMap.cs:54 | Before any snapshot the ratio history is empty and the ratio in force is 0 |
| KriyaFXOptionsMap.StaleKeepsLevels | KriyaFXOptionsMap.cs:294-335 | A snapshot that is not fresh leaves the ratio, its history and the expected-move band untouched |
| KriyaFXOptionsMap.ApplyPriceLatches | KriyaFXOptionsMap.cs:343-348 | Storing a price updates the ratio only while it is unlatched and both prices are positive. Then the ratio becomes futures / index exactly |
| KriyaFXOptionsMap.FirstRatio | KriyaFXOptionsMap.cs:344-348 | The single ratio update leaves a one-entry history holding futures / index, positive |
| KriyaFXOptionsMap.RatioIsUpdatedOnce | KriyaFXOptionsMap.cs:343-348 | `UpdateRatio` runs at most once, on the first fresh snapshot arriving with both prices positive. Before it the ratio is 0; afterwards it never changes |
| KriyaFXOptionsMap.FreshSnapshotSetsGexLevels | KriyaFXOptionsMap.cs:371-438 | A fresh snapshot rebuilds the seven lists. It places maxGexLevel and minGexLevel at the first strike of greatest and of least net GEX times the ratio, or 0 when no item qualifies. The levels are then marked calculated |
| KriyaFXOptionsMap.RefreshSetsGexLevels | KriyaFXOptionsMap.cs:371-447 | The rebuild from any state keeps the ratio and sets the lists and GEX levels as above |
| KriyaFXOptionsMap.ExpectedMoveIsLatchedOnce | KriyaFXOptionsMap.cs:352-366 | The band is set once, to (price ± move) × currentRatio, by the first fresh chain carrying ExpectedMove. After that it never changes |
| KriyaFXOptionsMap.BandBeforeFirstAskIsZero | KriyaFXOptionsMap.cs:343-363 | If ExpectedMove arrives before any ask, the band is latched at 0 for good while the ratio is still unlatched |
| KriyaFXOptionsMap.KriyaFXOptionsMap.OnMarketData | KriyaFXOptionsMap.cs:200-206 | Only an ask event moves futurePrice |
| KriyaFXOptionsMap.KriyaFXOptionsMap.UpdateRatio | KriyaFXOptionsMap.cs:274-285 | With both prices positive the ratio joins the window and the ratio in force becomes the window's mean; otherwise nothing changes |
| KriyaFXOptionsMap.KriyaFXOptionsMap.ProcessOptionsData | KriyaFXOptionsMap.cs:287-476 | The method's effect on every field it touches equals `Process` for the selected symbol |
| KriyaFXOptionsMap.KriyaFXOptionsMap.RebuildStrikeLists | KriyaFXOptionsMap.cs:371-433 | The clearing and the loop leave the lists and volume records equal to `ScanItems`, and return the strikes of the running extremes |
| KriyaFXOptionsMap.KriyaFXOptionsMap.ProcessReassembledMessage | KriyaFXOptionsMap.cs:941-963 | Only an "update" message carrying data is processed |
| KriyaFXOptionsMap.KriyaFXOptionsMap.ProcessWebSocketMessage | KriyaFXOptionsMap.cs:901-939 | The chunk buffer steps as `Deliver`, and a forwarded text is decoded and dispatched |
| KriyaFXIndexStrikes.WithStrike | KriyaFXIndexStrikes.cs:236-246 | At most as many items as the input, each carrying a strike |
| KriyaFXIndexStrikes.WithStrikeKeepsEveryStrike | KriyaFXIndexStrikes.cs:236-246 | Every input item carrying a strike is kept, and nothing else is added |
| KriyaFXIndexStrikes.ScanFollowsStrikeItems | KriyaFXIndexStrikes.cs:233-246 | The two lists have one entry per item carrying a strike, in input order, with level = strike × currentRatio |
| KriyaFXIndexStrikes.StaleSnapshotIsIgnored | KriyaFXIndexStrikes.cs:190-221 | Missing Options, symbol or Data, an Updated outside the long range (Convert.ToInt64 throws; the catch at line 258 only logs), or a repeated timestamp, returns with nothing written |
| KriyaFXIndexStrikes.StoredTimestampIsInt64 | KriyaFXIndexStrikes.cs:215-223 | The stored lastUpdateTimestamp stays within the long range |
| KriyaFXIndexStrikes.ProcessIsIdempotent | KriyaFXIndexStrikes.cs:216-223 | Delivering the same snapshot twice has the effect of delivering it once |
| KriyaFXIndexStrikes.InitialWindowHolds | KriyaFXIndexStrikes.cs:50 | Before any snapshot the window is empty and the ratio in force is 0 |
| KriyaFXIndexStrikes.FreshSnapshotUpdatesRatio | KriyaFXIndexStrikes.cs:171-182 | Every fresh priced snapshot with both prices positive pushes futures / index onto the window and puts its mean in force. Otherwise the ratio is unchanged |
| KriyaFXIndexStrikes.ProcessKeepsWindow | KriyaFXIndexStrikes.cs:171-228 | The window stays within 100 ratios with its mean in force |
| KriyaFXIndexStrikes.FreshSnapshotRebuildsLists | KriyaFXIndexStrikes.cs:227-246 | A fresh priced snapshot rebuilds both lists at the ratio just computed |
| KriyaFXIndexStrikes.KriyaFXIndexStrikes.OnMarketData | KriyaFXIndexStrikes.cs:125-131 | Only an ask event moves futurePrice |
| KriyaFXIndexStrikes.KriyaFXIndexStrikes.UpdateRatio | KriyaFXIndexStrikes.cs:171-182 | Enqueue, dequeue past 100 and average, as `UpdatedRatio` |
| KriyaFXIndexStrikes.KriyaFXIndexStrikes.ProcessOptionsData | KriyaFXIndexStrikes.cs:184-262 | The method's effect equals `Process` for the selected symbol |
| KriyaFXIndexStrikes.KriyaFXIndexStrikes.RebuildStrikeLists | KriyaFXIndexStrikes.cs:233-246 | The clearing and the loop leave the lists equal to `ScanStrikes` at the current ratio |
| KriyaFXIndexStrikes.KriyaFXIndexStrikes.ProcessReassembledMessage | KriyaFXIndexStrikes.cs:426-444 | Only an "update" message carrying data is processed |
| KriyaFXIndexStrikes.KriyaFXIndexStrikes.ProcessWebSocketMessage | KriyaFXIndexStrikes.cs:388-424 | The chunk buffer steps as `Deliver`, and a forwarded text is decoded and dispatched |
| IndexStrikesRefactored.Qualifying | IndexStrikesRefactored.cs:217-219 | At most as many items as the input, each carrying strike and Net_ASK_Volume |
| IndexStrikesRefactored.QualifyingKeepsEveryQualifier | IndexStrikesRefactored.cs:217-219 | Every input item carrying strike and Net_ASK_Volume is kept, and nothing else is added |
| IndexStrikesRefactored.ScanFollowsQualifyingItems | IndexStrikesRefactored.cs:217-231 | The three lists are parallel, one row per qualifying item in input order, with level = strike × ratio |
| IndexStrikesRefactored.Matching | IndexStrikesRefactored.cs:354-367 | The qualifying items whose strike is already listed |
| IndexStrikesRefactored.MatchingKeepsEveryListedItem | IndexStrikesRefactored.cs:354-358 | Every qualifying input item whose strike is listed is kept, and nothing else is added |
| IndexStrikesRefactored.VolumesFollowMatchingItems | IndexStrikesRefactored.cs:352-367 | The refreshed volumes are those of the items whose strike is listed, in input order. Items whose strike is not listed are skipped, so the volumes need not line up with the rows |
| IndexStrikesRefactored.ScanListsEveryStrike | IndexStrikesRefactored.cs:217-231 | After a rebuild every qualifying item's strike is listed |
| IndexStrikesRefactored.SameDataReproducesVolumes | IndexStrikesRefactored.cs:352-367 | Refreshing volumes from the items that built the lists reproduces the stored volumes |
| IndexStrikesRefactored.MissingDataChangesNothing | IndexStrikesRefactored.cs:185-196 | Missing Options or Data returns before the lists are cleared |
| IndexStrikesRefactored.SnapshotRebuildsLists | IndexStrikesRefactored.cs:203-231 | The snapshot sets futurePrice = ask - tickSize and ratio = futurePrice / Price. It rebuilds the three lists one row per qualifying item, and leaves the timer flag alone |
| IndexStrikesRefactored.RefreshFromSameSnapshotKeepsLists | IndexStrikesRefactored.cs:334-367 | A volume refresh from the snapshot the lists were built from leaves all three lists as they were |
| IndexStrikesRefactored.TimerDecision | IndexStrikesRefactored.cs:256-266 | Calculate iff the flag is clear at or after 15:30. Refresh volumes iff the flag is set. Idle iff the flag is clear before 15:30 |
| IndexStrikesRefactored.FlagSetOnlyByFetchAfterOpen | IndexStrikesRefactored.cs:256-303 | The flag is set only by a tick at or after 15:30 whose fetch returned data, and once set it stays set. An unset tick changes nothing else, and a refresh never moves strikes or levels |
| IndexStrikesRefactored.RebuildIsPlottable | IndexStrikesRefactored.cs:460 | A rebuild with at least one qualifying item passes the plotting guard |
| IndexStrikesRefactored.VolumeBand | IndexStrikesRefactored.cs:430-454 | With the volume / 30000 clamped to [-1, 1]: blue iff its magnitude is below 0.1, red iff it is at least 0.1 and negative, green iff at least 0.1 and non-negative |
| IndexStrikesRefactored.BandByVolume | IndexStrikesRefactored.cs:433-453 | Blue iff -3000 < volume < 3000, red iff volume ≤ -3000, green iff volume ≥ 3000 |
| IndexStrikesRefactored.Plotted | IndexStrikesRefactored.cs:456-490 | Nothing is drawn unless the three lists are non-empty and of equal length. Otherwise there is one row per index, with its level, strike and volume colour |
| IndexStrikesRefactored.KriyaFXOptionsData.ProcessOptionsData | IndexStrikesRefactored.cs:177-255 | The method's effect equals `Process` |
| IndexStrikesRefactored.KriyaFXOptionsData.RebuildStrikeLists | IndexStrikesRefactored.cs:217-231 | The loop fills the cleared lists with `ScanItems` at the current ratio |
| IndexStrikesRefactored.KriyaFXOptionsData.OnTimerElapsed | IndexStrikesRefactored.cs:256-266 | One tick's effect equals `Tick` |
| IndexStrikesRefactored.KriyaFXOptionsData.CalculateStrikeLevels | IndexStrikesRefactored.cs:268-285 | The flag is set exactly when the fetch returned data |
| IndexStrikesRefactored.KriyaFXOptionsData.UpdateNetAskVolumes | IndexStrikesRefactored.cs:287-303 | Returned data refreshes the volumes; a failed fetch changes nothing |
| IndexStrikesRefactored.KriyaFXOptionsData.UpdateVolumes | IndexStrikesRefactored.cs:334-382 | The loop rebuilds netAskVolumes as `MatchedVolumes` of the listed strikes |
| IndexStrikesRefactored.IndexOf | IndexStrikesRefactored.cs:361 | -1 iff the value is absent, otherwise the first index holding it |
| IndexStrikes.CheckArray | IndexStrikes.cs:186-199 | The checks before an array is read: an absent s fails with the KeyNotFoundException message, an s other than "ok" with "API response indicates failure.", an absent array key with KeyNotFoundException, and a null, non-array or empty array with the parser's no-data message. Only s = "ok" with a non-empty array passes |
| IndexStrikes.ParseMarketStatus | IndexStrikes.cs:183-206 | Succeeds iff s is "ok" and status is a non-empty array. Then the result is true iff its first element equals "open" ignoring case. Each failure carries the message of the exception the source throws |
| IndexStrikes.StatusIgnoresCase | IndexStrikes.cs:204 | The decision depends on the status text only up to letter case |
| IndexStrikes.OpenInAnyCase | IndexStrikes.cs:204 | A four-letter status reads open exactly when its letters are o, p, e, n in any case |
| IndexStrikes.ParseIndexPrice | IndexStrikes.cs:208-228 | Succeeds iff s is "ok" and last is a non-empty array, and then returns its first element. Each failure carries the message of the exception the source throws |
| IndexStrikes.LadderSurroundsPrice | IndexStrikes.cs:259-277 | The ladder holds 21 consecutive integers from floor(price) - 10 to floor(price) + 10. The price lies in the middle rung's unit interval |
| IndexStrikes.CheckStartsOnce | IndexStrikes.cs:76-85 | However often the chart goes real-time, the market-status check starts at most once, and the latch stays set |
| IndexStrikes.IndexStrikes.OnRealtime | IndexStrikes.cs:76-85 | The first transition stores the ticker and starts the check; later ones do nothing |
| IndexStrikes.IndexStrikes.CheckMarketStatus | IndexStrikes.cs:102-145 | The price is fetched iff a token is set and the status request succeeded, whatever the status says |
| IndexStrikes.IndexStrikes.OnIndexQuote | IndexStrikes.cs:147-181 | A successful, parsable quote redraws the ladder around the quoted price with ratio (ask - tickSize) / price. Any failure leaves both lists untouched |
| IndexStrikes.IndexStrikes.UpdateStrikeLevelsOnUI | IndexStrikes.cs:250-285 | The loop from -10 to 10 leaves indexStrikes equal to the ladder and strikeLevels equal to its projection by futures / index price |

## Left out

- Network and I/O are not modelled: login, HTTP requests, WebSocket connect, receive and reconnect, and `Task`/`Dispatcher` scheduling. Request outcomes and decoded payloads are parameters.
- JSON decoding is not modelled: decoded dictionaries are records with optional fields. A key present with a null or wrongly typed value, which makes `Convert` or a cast throw, is not modelled, except where the throw is the source's normal error path (a missing `Price` or chunk field, an out-of-range chunk field or `Updated` value, a missing, null or non-array key of a marketdata.app response). Array elements of those responses are strings and numbers.
- Rendering is not modelled: SharpDX drawing, brushes, text, pixel coordinates, and the gradient intensity and alpha inside a colour band (the `Math.Log10` scaling). Only the choice of band is modelled.
- Floating point is modelled as exact reals: no NaN, no infinity and no rounding. Where the source divides by the index price unguarded, the model requires a non-zero price on that path only: the snapshot that first fixes the ratio in KriyaFXOptionsDataMap.cs, every snapshot in IndexStrikesRefactored.cs (`ratio = futurePrice / indexPrice` at line 210; `IndexStrikesRefactored.Process` and `KriyaFXOptionsData.ProcessOptionsData` require `Price != 0`), and the quote that builds the ladder in IndexStrikes.cs. A zero price there gives an infinite ratio in the source.
- `GetFuturePriceAtTimestamp` in KriyaFXOptionsDataMap.cs is the parameter `hostFuturePrice`, apart from the `AddSeconds` range check it starts with. `GetCurrentAsk()`, `TickSize` and the wall-clock time of day are parameters too.
- KriyaFXOptionsMap.ArgMax: the `double.MinValue` / `double.MaxValue` starting sentinels are modelled as "no value yet". An item whose GEX equals exactly `double.MinValue` would not move the source's maximum.
- KriyaFXOptionsMap.Refresh: `Total_GEX_Volume` is looked up in `Options` but read from the selected chain. This is modelled as written: when only `Options` carries it, the read throws and `isDataFetched` ends false after everything else was written.
- KriyaFXOptionsMap.cs uses `ratioHistory` without declaring it. The model takes the `Queue<double>` declaration of KriyaFXIndexStrikes.cs:50.
- KriyaFXOptionsMap.BandBeforeFirstAskIsZero: the band is latched with whatever ratio is in force. This is modelled as written, so an expected move seen before the first ask latches the band at 0.
- IndexStrikes.IndexStrikes.CheckMarketStatus: the status content is ignored because the source hard-codes the market as open. `ParseMarketStatus` is modelled on its own, and `UpdateMarketStatusOnUI`, which is unreachable, is left out.
- IndexStrikes.EqualsIgnoreCase: `OrdinalIgnoreCase` is modelled as ASCII letter folding only.
- IndexStrikesRefactored.KriyaFXOptionsData.ProcessStrikeLevels: the source body is empty, so calculating strike levels only sets the flag.
- Time of day is `TimeSpan` ticks; the 15:30 opening ignores time zones.
- The `SmoothingFactor` property of KriyaFXOptionsDataMap.cs is never read by the computation. The model uses the `smoothingFactor` field, 0.4.
- Fields that the source always clears and appends together are held as one record per class, and the tracker and total-volume fields likewise. Aliasing between them does not arise in the source.
- A chunk index within the `int` range but too large to pad up to in memory throws `OutOfMemoryException` in the source; the model pads without limit.
- Logging (`Print`), chart invalidation, the properties shown in the UI, and `OnStateChange` setup and teardown are left out, apart from the real-time latch of IndexStrikes.cs.
- KriyaFXOptionsData.cs is not part of this model.
