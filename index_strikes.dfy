/** IndexStrikes.cs (class `IndexStrikes`): once the chart goes real-time, the
    marketdata.app quote of the index is fetched and a ladder of 21 consecutive integer
    strikes around the index price is drawn, each projected onto the futures price
    scale by the ratio futures / index price. */
module IndexStrikes {
  import opened Snapshots

  datatype Result<+T> = Success(value: T) | Failure(error: string)

  // ---------------------------------------------------------------------------
  // marketdata.app responses

  /** A key of the decoded response object: absent, or present with a value of the
      expected kind (`None` when that value is `null`, or for an array key when it is
      not an array). */
  datatype Field<T> = Missing | Present(read: Option<T>)

  /** A decoded response: the status string `s` and the arrays `status` and `last`. */
  datatype Response = Response(s: Field<string>, status: Field<seq<string>>, last: Field<seq<real>>)

  /** The message of the `KeyNotFoundException` that indexing an absent key throws. */
  const KeyNotFound := "The given key was not present in the dictionary."

  /** The key is present and holds a non-empty array. */
  predicate HasItems<T>(f: Field<seq<T>>)
  {
    f.Present? && f.read.Some? && f.read.value != []
  }

  /** The upper-case form of an ASCII letter; any other character is its own. */
  function Upper(c: char): char
  {
    if 'a' <= c <= 'z' then (c as int - 'a' as int + 'A' as int) as char else c
  }

  /** `Equals(other, StringComparison.OrdinalIgnoreCase)` against an ASCII word. */
  predicate EqualsIgnoreCase(a: string, b: string)
  {
    |a| == |b| && forall i :: 0 <= i < |a| ==> Upper(a[i]) == Upper(b[i])
  }

  /** The checks both parsers make before reading their array: an absent `s` throws
      `KeyNotFoundException`, an `s` other than "ok" the failure exception, an absent
      array key `KeyNotFoundException`, and a null, non-array or empty array `noData`. */
  function CheckArray<T>(r: Response, f: Field<seq<T>>, noData: string): (res: Option<string>)
    ensures res.None? <==> r.s == Present(Some("ok")) && HasItems(f)
    ensures r.s.Missing? ==> res == Some(KeyNotFound)
    ensures r.s.Present? && r.s.read != Some("ok") ==> res == Some("API response indicates failure.")
    ensures r.s == Present(Some("ok")) && f.Missing? ==> res == Some(KeyNotFound)
    ensures r.s == Present(Some("ok")) && f.Present? && !HasItems(f) ==> res == Some(noData)
  {
    if r.s.Missing? then Some(KeyNotFound)
    else if r.s.read != Some("ok") then Some("API response indicates failure.")
    else if f.Missing? then Some(KeyNotFound)
    else if f.read.None? || f.read.value == [] then Some(noData)
    else None
  }

  /** `ParseMarketStatus`: the checks of `CheckArray` on `status`, each failure carrying
      its exception's message; otherwise the market is open iff the first status reads
      "open" in any letter case. */
  function ParseMarketStatus(r: Response): (res: Result<bool>)
    ensures res.Success? <==> r.s == Present(Some("ok")) && HasItems(r.status)
    ensures res.Success? ==> (res.value <==> EqualsIgnoreCase(r.status.read.value[0], "open"))
    ensures res.Failure? ==> Some(res.error) == CheckArray(r, r.status, "No market status data available.")
  {
    var failure := CheckArray(r, r.status, "No market status data available.");
    if failure.Some? then Failure(failure.value)
    else Success(EqualsIgnoreCase(r.status.read.value[0], "open"))
  }

  /** `ParseIndexPrice`: the same checks on `last`; otherwise its first element. */
  function ParseIndexPrice(r: Response): (res: Result<real>)
    ensures res.Success? <==> r.s == Present(Some("ok")) && HasItems(r.last)
    ensures res.Success? ==> res.value == r.last.read.value[0]
    ensures res.Failure? ==> Some(res.error) == CheckArray(r, r.last, "No price data available.")
  {
    var failure := CheckArray(r, r.last, "No price data available.");
    if failure.Some? then Failure(failure.value)
    else Success(r.last.read.value[0])
  }

  /** The market reads open exactly for the four letters o, p, e, n in any case. */
  lemma OpenInAnyCase(word: string)
    requires |word| == 4
    ensures EqualsIgnoreCase(word, "open") <==>
      (word[0] == 'o' || word[0] == 'O') && (word[1] == 'p' || word[1] == 'P')
      && (word[2] == 'e' || word[2] == 'E') && (word[3] == 'n' || word[3] == 'N')
  {
    assert Upper('o') == 'O' && Upper('p') == 'P' && Upper('e') == 'E' && Upper('n') == 'N';
  }

  /** The decision depends on the status text only up to letter case: two responses
      that agree on `s`, on which of `status` is absent and which holds items, and
      whose first statuses match up to case, parse alike. */
  lemma StatusIgnoresCase(r1: Response, r2: Response)
    requires r1.s == r2.s && (r1.status.Missing? <==> r2.status.Missing?)
    requires HasItems(r1.status) <==> HasItems(r2.status)
    requires HasItems(r1.status) ==> EqualsIgnoreCase(r1.status.read.value[0], r2.status.read.value[0])
    ensures ParseMarketStatus(r1) == ParseMarketStatus(r2)
  {
    if r1.s == Present(Some("ok")) && HasItems(r1.status) {
      var a, b := r1.status.read.value[0], r2.status.read.value[0];
      assert EqualsIgnoreCase(a, "open") <==> EqualsIgnoreCase(b, "open") by {
        if EqualsIgnoreCase(a, "open") {
          assert forall i :: 0 <= i < |b| ==> Upper(b[i]) == Upper(a[i]);
        }
        if EqualsIgnoreCase(b, "open") {
          assert forall i :: 0 <= i < |a| ==> Upper(a[i]) == Upper(b[i]);
        }
      }
    }
  }

  // ---------------------------------------------------------------------------
  // The strike ladder

  const StrikesAbove: nat := 10
  const StrikesBelow: nat := 10

  /** The number of rungs: `STRIKES_BELOW + STRIKES_ABOVE + 1`. */
  const Rungs: nat := StrikesBelow + StrikesAbove + 1

  /** The consecutive integers from floor(price) - 10 to floor(price) + 10. */
  function Ladder(indexPrice: real): (r: seq<real>)
    ensures |r| == Rungs
  {
    seq(Rungs, k requires 0 <= k < Rungs => (indexPrice.Floor - StrikesBelow + k) as real)
  }

  /** Each strike projected by `ratio`. */
  function Projected(strikes: seq<real>, ratio: real): (r: seq<real>)
    ensures |r| == |strikes|
    ensures forall k :: 0 <= k < |r| ==> r[k] == FutureStrike(strikes[k], ratio)
  {
    seq(|strikes|, k requires 0 <= k < |strikes| => FutureStrike(strikes[k], ratio))
  }

  /** The ladder holds 21 ascending consecutive integers, the middle one the floor of
      the price, so the price lies in the middle rung's unit interval and ten rungs
      lie on each side. */
  lemma LadderSurroundsPrice(indexPrice: real)
    ensures var l := Ladder(indexPrice);
      && l[0] == (indexPrice.Floor - 10) as real && l[Rungs - 1] == (indexPrice.Floor + 10) as real
      && (forall k :: 0 < k < Rungs ==> l[k] == l[k - 1] + 1.0)
      && l[StrikesBelow] <= indexPrice < l[StrikesBelow] + 1.0
  {
  }

  // ---------------------------------------------------------------------------
  // Initialisation and the market-status check

  /** The `isInitialized` latch of the `State.Realtime` branch: the first transition
      stores the ticker and starts the market-status check; later ones do nothing. */
  datatype Latch = Latch(isInitialized: bool, ticker: string)

  function Realtime(l: Latch, indexTicker: string): (Latch, bool)
  {
    if !l.isInitialized then (Latch(true, indexTicker), true) else (l, false)
  }

  /** However many times the chart goes real-time, the check starts at most once. */
  lemma {:induction false} CheckStartsOnce(l: Latch, tickers: seq<string>)
    ensures var (final, started) := RealtimeAll(l, tickers);
      && started <= (if l.isInitialized then 0 else 1)
      && (tickers != [] ==> final.isInitialized)
      && (l.isInitialized ==> final == l)
    decreases |tickers|
  {
    if tickers != [] {
      CheckStartsOnce(l, tickers[..|tickers| - 1]);
    }
  }

  /** The latch after a sequence of real-time transitions, and how many checks started. */
  function RealtimeAll(l: Latch, tickers: seq<string>): (Latch, nat)
  {
    if tickers == [] then (l, 0)
    else
      var (mid, n) := RealtimeAll(l, tickers[..|tickers| - 1]);
      var (last, started) := Realtime(mid, tickers[|tickers| - 1]);
      (last, n + if started then 1 else 0)
  }

  // ---------------------------------------------------------------------------
  // The indicator object

  class IndexStrikes {
    var strikeLevels: seq<real>
    var indexStrikes: seq<real>
    var isInitialized: bool
    var ticker: string

    /** The `APIToken` and `IndexTicker` properties. */
    const apiToken: string
    const indexTicker: string

    constructor (token: string, symbol: string)
      ensures strikeLevels == [] && indexStrikes == [] && !isInitialized && ticker == ""
      ensures apiToken == token && indexTicker == symbol
    {
      strikeLevels, indexStrikes := [], [];
      isInitialized, ticker := false, "";
      apiToken, indexTicker := token, symbol;
    }

    /** The `State.Realtime` branch of `OnStateChange`; `startCheck` stands for the call
        to `CheckMarketStatusAsync`. */
    method OnRealtime() returns (startCheck: bool)
      modifies this`isInitialized, this`ticker
      ensures (Latch(isInitialized, ticker), startCheck) == Realtime(Latch(old(isInitialized), old(ticker)), indexTicker)
    {
      startCheck := false;
      if !isInitialized {
        isInitialized := true;
        ticker := indexTicker;
        startCheck := true;
      }
    }

    /** `CheckMarketStatusAsync` once the status request has returned. The status
        content is not parsed: the market is taken as open whenever the request
        succeeds. `fetchPrice` stands for the call to `GetIndexPriceAsync`. */
    method CheckMarketStatus(requestSucceeded: bool, content: Response) returns (fetchPrice: bool)
      ensures fetchPrice <==> apiToken != "" && requestSucceeded
    {
      if apiToken == "" {
        return false;
      }
      if requestSucceeded {
        var isMarketOpen := true;
        fetchPrice := isMarketOpen;
      } else {
        fetchPrice := false;
      }
    }

    /** `GetIndexPriceAsync` once the quote request has returned; `ask` stands for the
        host's `GetCurrentAsk()` and `tickSize` for the instrument's `TickSize`. A quote
        that fails to parse throws and is caught with the lists untouched. */
    method OnIndexQuote(requestSucceeded: bool, content: Response, ask: real, tickSize: real)
      requires requestSucceeded && ParseIndexPrice(content).Success? ==> ParseIndexPrice(content).value != 0.0
      modifies this`strikeLevels, this`indexStrikes
      ensures var quote := ParseIndexPrice(content);
        if requestSucceeded && quote.Success? then
          indexStrikes == Ladder(quote.value)
          && strikeLevels == Projected(indexStrikes, (ask - tickSize) / quote.value)
        else indexStrikes == old(indexStrikes) && strikeLevels == old(strikeLevels)
    {
      if requestSucceeded {
        var quote := ParseIndexPrice(content);
        if quote.Success? {
          var indexPrice := quote.value;
          var futurePrice := ask - tickSize;
          UpdateStrikeLevelsOnUI(indexPrice, futurePrice);
        }
      }
    }

    /** Clears both lists and appends the 21 rungs from -10 to +10. */
    method UpdateStrikeLevelsOnUI(indexPrice: real, futurePrice: real)
      requires indexPrice != 0.0
      modifies this`strikeLevels, this`indexStrikes
      ensures indexStrikes == Ladder(indexPrice)
      ensures strikeLevels == Projected(indexStrikes, futurePrice / indexPrice)
    {
      strikeLevels := [];
      indexStrikes := [];
      var ratio := futurePrice / indexPrice;
      var roundedIndexStrike := indexPrice.Floor;
      var i: int := -(StrikesBelow as int);
      while i <= StrikesAbove
        invariant -(StrikesBelow as int) <= i <= StrikesAbove + 1
        invariant indexStrikes == Ladder(indexPrice)[..i + StrikesBelow]
        invariant strikeLevels == Projected(indexStrikes, ratio)
      {
        var indexStrike := (roundedIndexStrike + i) as real;
        var strikeLevel := FutureStrike(indexStrike, ratio);
        strikeLevels := strikeLevels + [strikeLevel];
        indexStrikes := indexStrikes + [indexStrike];
        assert indexStrikes == Ladder(indexPrice)[..i + 1 + StrikesBelow];
        i := i + 1;
      }
      assert Ladder(indexPrice)[..Rungs] == Ladder(indexPrice);
    }
  }
}
