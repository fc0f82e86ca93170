/**
 * The user-balance chart (src/components/Charts/UserBalanceChart/index.tsx):
 * how a vault record's optional price fields resolve to a token price and a
 * share price, how a balance series becomes the plotted (timestamp, token
 * value, USD value) series, and the component's display state, which an
 * effect and two pointer handlers update step by step.
 *
 * Prices are reals; a number that `parseFloat` could not read is NaN, which
 * propagates through products as in JavaScript.
 */
module BalanceChart {
  import opened Wrappers
  import opened VaultData

  /** A JavaScript number as this model needs it: a real value or NaN. */
  datatype JsNumber = NaN | Num(value: real)

  /** `a * b`: NaN if either side is NaN. */
  function Mul(a: JsNumber, b: JsNumber): (r: JsNumber)
    ensures r.Num? <==> a.Num? && b.Num?
    ensures r.Num? ==> r.value == a.value * b.value
  {
    if a.Num? && b.Num? then Num(a.value * b.value) else NaN
  }

  /** `x > 0`, which is false for NaN. */
  predicate IsPositive(x: JsNumber) {
    x.Num? && x.value > 0.0
  }

  /** `parseFloat` of a field that passed the truthiness test. */
  function ParseFloat(f: TextField): (r: JsNumber)
    requires f.Present?
    ensures r.Num? <==> f.parsed.Some?
    ensures r.Num? ==> r.value == f.parsed.value
  {
    if f.parsed.Some? then Num(f.parsed.value) else NaN
  }

  /** `Math.pow(10, d)` for an integer exponent, negative ones included. */
  function Pow10(d: int): (r: real)
    ensures r > 0.0
    ensures d >= 0 ==> r >= 1.0
    decreases if d < 0 then -d else d
  {
    if d == 0 then 1.0
    else if d > 0 then 10.0 * Pow10(d - 1)
    else Pow10(d + 1) / 10.0
  }

  /**
   * The record the chart prices with: the entry for `vaultId` when the vaults
   * data has loaded and the id is non-empty; otherwise none.
   */
  function CurrentVaultData(vaultsData: Option<VaultsMap>, vaultId: string): (r: Option<VaultRecord>)
    ensures r.Some? <==> vaultsData.Some? && vaultId != "" && vaultId in vaultsData.value
    ensures r.Some? ==> r.value == vaultsData.value[vaultId]
  {
    if vaultsData.Some? && vaultId != "" && vaultId in vaultsData.value
    then Some(vaultsData.value[vaultId])
    else None
  }

  /** The record has a non-empty `usdPrice`. */
  predicate HasUsdPrice(vault: Option<VaultRecord>) {
    vault.Some? && vault.value.usdPrice.Present?
  }

  /** The fallback's gate: `totalValueLocked` and `sharePrice` are both non-empty and both read as positive. */
  predicate SharePriceFallbackApplies(vault: Option<VaultRecord>) {
    && vault.Some?
    && vault.value.totalValueLocked.Present?
    && vault.value.sharePrice.Present?
    && IsPositive(ParseFloat(vault.value.totalValueLocked))
    && IsPositive(ParseFloat(vault.value.sharePrice))
  }

  /**
   * The token price. A non-empty `usdPrice` is parsed and used as it is (NaN,
   * zero and negative values included). Otherwise a positive `sharePrice` is
   * used when `totalValueLocked` is also positive, and the value of
   * `totalValueLocked` plays no other part. In every other case the price is 1.
   */
  function TokenPrice(vault: Option<VaultRecord>): (p: JsNumber)
    ensures HasUsdPrice(vault) ==> p == ParseFloat(vault.value.usdPrice)
    ensures !HasUsdPrice(vault) && SharePriceFallbackApplies(vault) ==> p == ParseFloat(vault.value.sharePrice) && IsPositive(p)
    ensures !HasUsdPrice(vault) && !SharePriceFallbackApplies(vault) ==> p == Num(1.0)
  {
    if vault.Some? && vault.value.usdPrice.Present? then
      ParseFloat(vault.value.usdPrice)
    else if vault.Some? && vault.value.totalValueLocked.Present? && vault.value.sharePrice.Present? then
      var tvl := ParseFloat(vault.value.totalValueLocked);
      var sharePrice := ParseFloat(vault.value.sharePrice);
      if IsPositive(tvl) && IsPositive(sharePrice) then sharePrice else Num(1.0)
    else
      Num(1.0)
  }

  /** The exponent used to scale `pricePerFullShare`: the record's `decimals` unless it is missing (`??`, so 0 is kept). */
  function Decimals(vault: VaultRecord, vaultDecimals: int): int {
    vault.decimals.GetOr(vaultDecimals)
  }

  /**
   * The share price: a non-empty `pricePerFullShare` divided by 10 to the
   * power of the decimals; 1 when the field is empty or there is no record.
   */
  function SharePrice(vault: Option<VaultRecord>, vaultDecimals: int): (p: JsNumber)
    ensures (vault.None? || vault.value.pricePerFullShare.Absent?) ==> p == Num(1.0)
    ensures vault.Some? && vault.value.pricePerFullShare == Present(None) ==> p == NaN
    ensures vault.Some? && vault.value.pricePerFullShare.Present? && vault.value.pricePerFullShare.parsed.Some? ==>
      p.Num? && p.value * Pow10(Decimals(vault.value, vaultDecimals)) == vault.value.pricePerFullShare.parsed.value
  {
    if vault.Some? && vault.value.pricePerFullShare.Present? then
      var pricePerFullShare := ParseFloat(vault.value.pricePerFullShare);
      var decimals := Decimals(vault.value, vaultDecimals);
      if pricePerFullShare.Num? then Num(pricePerFullShare.value / Pow10(decimals)) else NaN
    else
      Num(1.0)
  }

  /** Both prices as one render computes them. */
  datatype Prices = Prices(tokenPrice: JsNumber, sharePrice: JsNumber)

  function PricesFor(vault: Option<VaultRecord>, vaultDecimals: int): Prices {
    Prices(TokenPrice(vault), SharePrice(vault, vaultDecimals))
  }

  /** One sample of the balance series. */
  datatype BalanceSample = BalanceSample(timestamp: int, value: real)

  /** One plotted point. */
  datatype ChartPoint = ChartPoint(timestamp: int, tokenValue: real, usdValue: JsNumber)

  /** `value * tokenPrice * sharePrice`, evaluated left to right. */
  function UsdValue(value: real, prices: Prices): (r: JsNumber)
    ensures r.Num? <==> prices.tokenPrice.Num? && prices.sharePrice.Num?
    ensures r.Num? ==> r.value == value * prices.tokenPrice.value * prices.sharePrice.value
  {
    Mul(Mul(Num(value), prices.tokenPrice), prices.sharePrice)
  }

  /** The point plotted for one sample. */
  function PointOf(sample: BalanceSample, prices: Prices): ChartPoint {
    ChartPoint(sample.timestamp, sample.value, UsdValue(sample.value, prices))
  }

  /** `chartData`: one point per sample, in the same order. */
  function ChartData(data: seq<BalanceSample>, prices: Prices): (points: seq<ChartPoint>)
    ensures |points| == |data|
    ensures forall i :: 0 <= i < |data| ==>
      points[i].timestamp == data[i].timestamp && points[i].tokenValue == data[i].value
      && points[i].usdValue == UsdValue(data[i].value, prices)
  {
    if data == [] then [] else [PointOf(data[0], prices)] + ChartData(data[1..], prices)
  }

  /** `Math.max` of a non-empty list. */
  function MaxOf(xs: seq<real>): (m: real)
    requires |xs| > 0
    ensures forall i :: 0 <= i < |xs| ==> xs[i] <= m
    ensures exists i :: 0 <= i < |xs| && xs[i] == m
  {
    if |xs| == 1 then xs[0]
    else
      var rest := MaxOf(xs[1..]);
      if xs[0] >= rest then xs[0] else rest
  }

  function TokenValues(points: seq<ChartPoint>): (xs: seq<real>)
    ensures |xs| == |points| && forall i :: 0 <= i < |points| ==> xs[i] == points[i].tokenValue
  {
    seq(|points|, i requires 0 <= i < |points| => points[i].tokenValue)
  }

  /**
   * The top of the token axis, `max(tokenValue) * 1.1`; None for an empty
   * series, where `Math.max()` gives minus infinity.
   */
  function TokenAxisTop(points: seq<ChartPoint>): (top: Option<real>)
    ensures top.Some? <==> |points| > 0
    ensures top.Some? ==> forall i :: 0 <= i < |points| ==> points[i].tokenValue * 1.1 <= top.value
    ensures top.Some? ==> exists i :: 0 <= i < |points| && top.value == points[i].tokenValue * 1.1
  {
    if |points| == 0 then None else Some(MaxOf(TokenValues(points)) * 1.1)
  }

  /**
   * The top of the USD axis, `max(usdValue) * 1.3`; None for an empty series
   * or when some value is NaN (then `Math.max` gives NaN).
   */
  function UsdAxisTop(points: seq<ChartPoint>): (top: Option<real>)
    ensures top.Some? <==> |points| > 0 && forall i :: 0 <= i < |points| ==> points[i].usdValue.Num?
    ensures top.Some? ==> forall i :: 0 <= i < |points| ==> points[i].usdValue.value * 1.3 <= top.value
    ensures top.Some? ==> exists i :: 0 <= i < |points| && top.value == points[i].usdValue.value * 1.3
  {
    if |points| > 0 && forall i :: 0 <= i < |points| ==> points[i].usdValue.Num? then
      var usd := seq(|points|, i requires 0 <= i < |points| => points[i].usdValue.value);
      assert forall i :: 0 <= i < |points| ==> usd[i] == points[i].usdValue.value;
      Some(MaxOf(usd) * 1.3)
    else
      None
  }

  /** The readout above the chart: a date, a token value and a USD value, kept unformatted. */
  datatype Readout = Readout(date: int, tokenValue: real, usdValue: JsNumber)

  /** The readout for the last sample, as all three places that show the latest value compute it. */
  function LatestReadout(samples: seq<BalanceSample>, prices: Prices): (r: Option<Readout>)
    ensures r.Some? <==> |samples| > 0
    ensures r.Some? ==> var last := samples[|samples| - 1];
      r.value.date == last.timestamp && r.value.tokenValue == last.value
      && r.value.usdValue == ChartData(samples, prices)[|samples| - 1].usdValue
  {
    if |samples| == 0 then None
    else
      var last := samples[|samples| - 1];
      Some(Readout(last.timestamp, last.value, UsdValue(last.value, prices)))
  }

  /** The `isDataReady` state: "true", "false" or "loading". */
  datatype Readiness = ReadyTrue | ReadyFalse | ReadyLoading

  /** What the component renders. */
  datatype Screen = NoDataMessage | Spinner | Chart

  /** The render's choice: the no-data message, else the spinner while loading, else the chart. */
  function ScreenFor(isDataReady: Readiness, loading: bool): (v: Screen)
    ensures v == NoDataMessage <==> isDataReady == ReadyFalse && !loading
    ensures v == Spinner <==> loading
    ensures v == Chart <==> !loading && isDataReady != ReadyFalse
  {
    if isDataReady == ReadyFalse && !loading then NoDataMessage
    else if loading then Spinner
    else Chart
  }

  /**
   * The component's inputs: the two addresses, the balance series handed in
   * by the parent (`cachedData.balance`; a `cachedData` without `balance`
   * reads as an empty series) and the parent's loading flag.
   */
  datatype Props = Props(vaultAddress: string, userAddress: string, cachedBalance: Option<seq<BalanceSample>>, externalLoading: bool)

  /** How `fetchUserBalanceData` settled. */
  datatype BalanceResult = Loaded(balance: seq<BalanceSample>) | Failed

  /** A pointer position reported by the chart: the hovered label and, if present, the token-value payload. */
  datatype Hover = Hover(activeLabel: int, tokenValue: Option<real>)

  /**
   * The component's state. `pending` holds the prices captured by each
   * balance request still outstanding: a request settles with the prices of
   * the render that started it.
   */
  class ChartView {
    var data: seq<BalanceSample>
    var loading: bool
    var isDataReady: Readiness
    var curDate: Option<int>
    var curTokenValue: Option<real>
    var curUsdValue: Option<JsNumber>
    var pending: multiset<Prices>

    /** The readout currently shown equals `r`. */
    predicate Shows(r: Readout)
      reads this
    {
      curDate == Some(r.date) && curTokenValue == Some(r.tokenValue) && curUsdValue == Some(r.usdValue)
    }

    function Screen(): Screen
      reads this
    {
      ScreenFor(isDataReady, loading)
    }

    /** The first render's initial state. */
    constructor (cachedBalance: Option<seq<BalanceSample>>, externalLoading: bool)
      ensures data == cachedBalance.GetOr([])
      ensures loading == (externalLoading || cachedBalance.None?)
      ensures isDataReady == if cachedBalance.Some? then ReadyTrue else ReadyLoading
      ensures curDate == None && curTokenValue == None && curUsdValue == None
      ensures pending == multiset{}
    {
      data := cachedBalance.GetOr([]);
      loading := externalLoading || cachedBalance.None?;
      isDataReady := if cachedBalance.Some? then ReadyTrue else ReadyLoading;
      curDate, curTokenValue, curUsdValue := None, None, None;
      pending := multiset{};
    }

    /** Show the latest sample of a non-empty series. */
    method ShowLatest(samples: seq<BalanceSample>, prices: Prices)
      requires |samples| > 0
      modifies this`curDate, this`curTokenValue, this`curUsdValue
      ensures Shows(LatestReadout(samples, prices).value)
    {
      var latest := samples[|samples| - 1];
      curDate := Some(latest.timestamp);
      curTokenValue := Some(latest.value);
      curUsdValue := Some(UsdValue(latest.value, prices));
    }

    /**
     * The data effect, run with the current props and the prices of the
     * current render. Returns whether it started a balance request.
     */
    method RunEffect(props: Props, prices: Prices) returns (started: bool)
      modifies this
      ensures pending == if started then old(pending) + multiset{prices} else old(pending)
      // cached path: use the parent's series, never fetch
      ensures props.cachedBalance.Some? && !props.externalLoading ==>
        var balance := props.cachedBalance.value;
        && !started && data == balance && !loading
        && isDataReady == (if |balance| > 0 then ReadyTrue else ReadyFalse)
        && (|balance| > 0 ==> Shows(LatestReadout(balance, prices).value))
        && (|balance| == 0 ==> curDate == old(curDate) && curTokenValue == old(curTokenValue) && curUsdValue == old(curUsdValue))
      // the parent is loading: show the spinner, never fetch
      ensures props.externalLoading ==>
        && !started && loading
        && (props.cachedBalance.None? && props.vaultAddress != "" ==> data == [] && isDataReady == ReadyLoading)
        && (props.cachedBalance.Some? || props.vaultAddress == "" ==> data == old(data) && isDataReady == old(isDataReady))
      // fetch path: a missing address gives "false" without a request
      ensures props.cachedBalance.None? && !props.externalLoading ==>
        && (props.vaultAddress != "" ==> data == [])
        && (props.vaultAddress == "" ==> data == old(data))
        && (started <==> props.vaultAddress != "" && props.userAddress != "")
        && (started ==> loading && isDataReady == ReadyLoading)
        && (!started ==> !loading && isDataReady == ReadyFalse)
      ensures !(props.cachedBalance.Some? && !props.externalLoading) ==>
        curDate == old(curDate) && curTokenValue == old(curTokenValue) && curUsdValue == old(curUsdValue)
    {
      started := false;
      if props.vaultAddress != "" && props.cachedBalance.None? {
        data := [];
        isDataReady := ReadyLoading;
        loading := true;
      }
      if props.cachedBalance.Some? && !props.externalLoading {
        var balance := props.cachedBalance.value;
        data := balance;
        loading := false;
        isDataReady := if |balance| > 0 then ReadyTrue else ReadyFalse;
        if |balance| > 0 {
          ShowLatest(balance, prices);
        }
        return;
      }
      loading := props.externalLoading;
      if props.externalLoading {
        return;
      }
      // here no series was handed in, so the request closure runs
      if props.vaultAddress == "" || props.userAddress == "" {
        isDataReady := ReadyFalse;
        return;
      }
      loading := true;
      isDataReady := ReadyLoading;
      pending := pending + multiset{prices};
      started := true;
    }

    /** A balance request started with `captured` prices settles. */
    method SettleFetch(captured: Prices, result: BalanceResult)
      requires captured in pending
      modifies this
      ensures pending == old(pending) - multiset{captured}
      ensures !loading
      ensures result.Loaded? && |result.balance| > 0 ==>
        data == result.balance && isDataReady == ReadyTrue && Shows(LatestReadout(result.balance, captured).value)
      ensures result.Loaded? && |result.balance| == 0 ==> data == [] && isDataReady == ReadyFalse
      ensures result.Failed? ==> data == old(data) && isDataReady == ReadyFalse
      ensures !(result.Loaded? && |result.balance| > 0) ==>
        curDate == old(curDate) && curTokenValue == old(curTokenValue) && curUsdValue == old(curUsdValue)
      ensures Screen() == if result.Loaded? && |result.balance| > 0 then Chart else NoDataMessage
    {
      loading := false;
      pending := pending - multiset{captured};
      match result
      case Loaded(balance) =>
        if |balance| == 0 {
          data := [];
          isDataReady := ReadyFalse;
        } else {
          data := balance;
          isDataReady := ReadyTrue;
          ShowLatest(balance, captured);
        }
      case Failed =>
        isDataReady := ReadyFalse;
    }

    /** `handleMouseMove`: show the hovered label and, when the token payload is there, its value and USD value. */
    method MouseMove(hover: Option<Hover>, prices: Prices)
      modifies this`curDate, this`curTokenValue, this`curUsdValue
      ensures hover.None? ==> curDate == old(curDate) && curTokenValue == old(curTokenValue) && curUsdValue == old(curUsdValue)
      ensures hover.Some? ==> curDate == Some(hover.value.activeLabel)
      ensures hover.Some? && hover.value.tokenValue.Some? ==>
        var v := hover.value.tokenValue.value;
        curTokenValue == Some(v) && curUsdValue == Some(UsdValue(v, prices))
      ensures hover.Some? && hover.value.tokenValue.None? ==>
        curTokenValue == old(curTokenValue) && curUsdValue == old(curUsdValue)
    {
      if hover.Some? {
        curDate := Some(hover.value.activeLabel);
        if hover.value.tokenValue.Some? {
          var tokenValue := hover.value.tokenValue.value;
          curTokenValue := Some(tokenValue);
          curUsdValue := Some(UsdValue(tokenValue, prices));
        }
      }
    }

    /** `handleMouseLeave`: show the latest sample again; nothing changes for an empty series. */
    method MouseLeave(prices: Prices)
      modifies this`curDate, this`curTokenValue, this`curUsdValue
      ensures |data| > 0 ==> Shows(LatestReadout(data, prices).value)
      ensures |data| == 0 ==> curDate == old(curDate) && curTokenValue == old(curTokenValue) && curUsdValue == old(curUsdValue)
    {
      if |data| > 0 {
        ShowLatest(data, prices);
      }
    }
  }

  /**
   * With a series handed in, hovering anywhere and then leaving the chart
   * restores exactly the readout the effect showed, as long as the prices
   * have not changed.
   */
  method LeaveRestoresEffectReadout(view: ChartView, props: Props, prices: Prices, hover: Option<Hover>)
    requires props.cachedBalance.Some? && |props.cachedBalance.value| > 0 && !props.externalLoading
    modifies view
    ensures view.Shows(LatestReadout(props.cachedBalance.value, prices).value)
  {
    var started := view.RunEffect(props, prices);
    view.MouseMove(hover, prices);
    view.MouseLeave(prices);
  }

  /** A non-empty `usdPrice` decides the token price alone: the other price fields cannot change it. */
  lemma UsdPriceWins(vault: VaultRecord, tvl: TextField, sharePrice: TextField)
    requires vault.usdPrice.Present?
    ensures TokenPrice(Some(vault.(totalValueLocked := tvl, sharePrice := sharePrice))) == TokenPrice(Some(vault))
  {
  }

  /** No positivity check on `usdPrice`: a zero or negative price is used as it is. */
  lemma NonPositiveUsdPriceIsUsed(vault: VaultRecord, x: real)
    requires vault.usdPrice == Present(Some(x)) && x <= 0.0
    ensures TokenPrice(Some(vault)) == Num(x) && !IsPositive(TokenPrice(Some(vault)))
  {
  }

  /** `totalValueLocked` only gates the fallback: any two positive values give the same price. */
  lemma TvlOnlyGates(vault: VaultRecord, tvl1: real, tvl2: real)
    requires vault.usdPrice.Absent? && tvl1 > 0.0 && tvl2 > 0.0
    ensures TokenPrice(Some(vault.(totalValueLocked := Present(Some(tvl1)))))
         == TokenPrice(Some(vault.(totalValueLocked := Present(Some(tvl2)))))
  {
  }

  /** Without a record (vaults not loaded, empty id, unknown id) both prices are 1. */
  lemma NoRecordPricesAreOne(vaultsData: Option<VaultsMap>, vaultId: string, vaultDecimals: int)
    requires vaultsData.None? || vaultId == "" || vaultId !in vaultsData.value
    ensures PricesFor(CurrentVaultData(vaultsData, vaultId), vaultDecimals) == Prices(Num(1.0), Num(1.0))
  {
  }

  /** `usdPrice` "2.0" wins over `totalValueLocked` "100" and `sharePrice` "1.5". */
  lemma UsdPriceBeatsFallbackExample(vault: VaultRecord)
    requires vault.usdPrice == Present(Some(2.0))
    requires vault.totalValueLocked == Present(Some(100.0)) && vault.sharePrice == Present(Some(1.5))
    ensures TokenPrice(Some(vault)) == Num(2.0)
  {
  }

  /** `pricePerFullShare` "150000000" with 8 decimals gives a share price of 1.5. */
  lemma SharePriceExample(vault: VaultRecord, vaultDecimals: int)
    requires vault.pricePerFullShare == Present(Some(150000000.0)) && vault.decimals == Some(8)
    ensures SharePrice(Some(vault), vaultDecimals) == Num(1.5)
  {
    assert Pow10(2) == 100.0;
    assert Pow10(4) == 10000.0;
    assert Pow10(6) == 1000000.0;
    assert Pow10(8) == 100000000.0;
  }

  /** A record's `decimals` of 0 is kept, whatever the component's `vaultDecimals`. */
  lemma ZeroDecimalsKept(vault: VaultRecord, p: real, vaultDecimals: int)
    requires vault.pricePerFullShare == Present(Some(p)) && vault.decimals == Some(0)
    ensures SharePrice(Some(vault), vaultDecimals) == Num(p)
  {
  }

  /** Samples (t1, 10) and (t2, 20) at token price 2 and share price 1 plot as (t1, 10, 20) and (t2, 20, 40). */
  lemma SeriesExample(t1: int, t2: int)
    ensures ChartData([BalanceSample(t1, 10.0), BalanceSample(t2, 20.0)], Prices(Num(2.0), Num(1.0)))
         == [ChartPoint(t1, 10.0, Num(20.0)), ChartPoint(t2, 20.0, Num(40.0))]
  {
    var data := [BalanceSample(t1, 10.0), BalanceSample(t2, 20.0)];
    var points := ChartData(data, Prices(Num(2.0), Num(1.0)));
    assert points[0] == ChartPoint(t1, 10.0, Num(20.0));
    assert points[1] == ChartPoint(t2, 20.0, Num(40.0));
  }

  /**
   * Hovering the plotted point of sample `i`, whose payload carries that
   * point's token value, shows the point's date, token value and the very USD
   * value plotted for it.
   */
  method HoverShowsPlottedPoint(view: ChartView, data: seq<BalanceSample>, prices: Prices, i: int)
    requires 0 <= i < |data|
    modifies view
    ensures var point := ChartData(data, prices)[i];
      view.Shows(Readout(point.timestamp, point.tokenValue, point.usdValue))
  {
    var point := ChartData(data, prices)[i];
    view.MouseMove(Some(Hover(point.timestamp, Some(point.tokenValue))), prices);
  }
}
