/** Decoded option-chain snapshots, as the indicators see them after JSON decoding.
    Every `Option` field stands for "the key is present in the decoded dictionary";
    `None` is a missing key. */
module Snapshots {

  datatype Option<+T> = None | Some(value: T)

  /** The `call` or `put` sub-dictionary of one strike. */
  datatype Leg = Leg(askVolume: Option<real>, probabilityOfTouch: Option<real>)

  /** One element of the `Data` list: the per-strike dictionary. */
  datatype StrikeItem = StrikeItem(
    strike: Option<real>,
    netAskVolume: Option<real>,
    call: Option<Leg>,
    put: Option<Leg>,
    netGexVolume: Option<real>,
    netLiquidity: Option<real>)

  /** A dictionary holding an option chain: `Data`, `Updated`, `Symbol`, and the
      aggregate keys. The symbol-keyed variants also read `Price` and `ExpectedMove`
      from here. */
  datatype Block = Block(
    data: Option<seq<StrikeItem>>,
    updated: Option<int>,
    symbol: Option<string>,
    price: Option<real>,
    expectedMove: Option<real>,
    totalAskVolume: Option<real>,
    totalGexVolume: Option<real>,
    totalLiquidity: Option<real>)

  /** The `Options` dictionary. `fields` are its own keys (read by the single-chain
      indicators); `symbols` are the entries keyed by a ticker whose value is itself a
      chain dictionary (read by the symbol-selecting indicators). A key whose value is
      not a dictionary is absent from `symbols`. */
  datatype OptionsObject = OptionsObject(fields: Block, symbols: map<string, Block>)

  /** The top-level snapshot. `options` is `None` when the key is missing or its value
      is not a dictionary; the two cases are handled alike by every indicator. */
  datatype Snapshot = Snapshot(options: Option<OptionsObject>, price: Option<real>, expectedMove: Option<real>)

  /** `Options` is a dictionary whose entry for the selected symbol is a dictionary
      holding `Data`: what the symbol-selecting indicators demand before reading on. */
  predicate Selects(snap: Snapshot, selected: string)
  {
    snap.options.Some? && selected in snap.options.value.symbols
    && snap.options.value.symbols[selected].data.Some?
  }

  /** A decoded WebSocket message after reassembly: its `type` and its `data`. */
  datatype Envelope = Envelope(kind: Option<string>, data: Option<Snapshot>)

  /** The platform's market-data event kinds that the indicators distinguish. */
  datatype MarketDataType = Ask | Bid | Last | OtherMarketData

  /** `Convert.ToInt64(block["Updated"])` when the key is present, otherwise 0. */
  function UpdatedOrZero(b: Block): int
  {
    if b.updated.Some? then b.updated.value else 0
  }

  const Int64Min: int := -0x8000_0000_0000_0000
  const Int64Max: int := 0x7FFF_FFFF_FFFF_FFFF

  /** The values `Convert.ToInt64` accepts without an `OverflowException`. */
  predicate IsInt64(x: int) { Int64Min <= x <= Int64Max }

  /** The difference of two `long`s, as unchecked C# subtraction leaves it: the exact
      difference reduced into the `long` range. A difference of more than `Int64Max`
      comes out negative. */
  function Wrap64(x: int): (r: int)
    ensures IsInt64(r)
    ensures IsInt64(x) ==> r == x
    ensures Int64Max < x <= Int64Max - Int64Min ==> r == x - (Int64Max - Int64Min + 1) && r < 0
  {
    (x - Int64Min) % (Int64Max - Int64Min + 1) + Int64Min
  }

  /** `Updated` is absent, or `Convert.ToInt64` reads it without throwing. */
  predicate UpdatedReadable(b: Block)
  {
    b.updated.Some? ==> IsInt64(b.updated.value)
  }

  /** A strike on the index projected onto the futures price scale,
      `indexStrike * fixedRatio` (or `* ratio`), as every indicator computes it. */
  function FutureStrike(indexStrike: real, ratio: real): real
  {
    indexStrike * ratio
  }

  /** `dict.ContainsKey(k) ? Convert.ToDouble(dict[k]) : 0`. */
  function OrZero(v: Option<real>): real
  {
    if v.Some? then v.value else 0.0
  }

  /** The envelope that `ProcessReassembledMessage` hands to `ProcessOptionsData`:
      only messages of type "update" that carry `data`. */
  function UpdatePayload(env: Envelope): (r: Option<Snapshot>)
    ensures r.Some? <==> env.kind == Some("update") && env.data.Some?
    ensures r.Some? ==> r.value == env.data.value
  {
    if env.kind == Some("update") && env.data.Some? then env.data else None
  }

  function Min(a: real, b: real): real { if a <= b then a else b }
  function Max(a: real, b: real): real { if a <= b then b else a }
  function Abs(a: real): real { if a < 0.0 then -a else a }
}
