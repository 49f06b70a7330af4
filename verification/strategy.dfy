/**
 * The allocation rule of the prime-rate / corporate-profit trading strategy.
 *
 * On every evaluation cycle the framework hands `run` a mapping from series
 * keys to the observations of each series (oldest first). The rule compares
 * the last two observations of the bank prime loan rate and of corporate
 * profit after tax and answers a single-entry allocation for SPY. A lookup
 * that fails (a series or a `"value"` field that is not there) is Python's
 * `KeyError`; here it is an explicit `Failure` that leaves the default weight.
 */
module Strategy {
  import opened Wrappers

  /** A key of the data mapping. The framework keys every series by a tuple of names. */
  datatype DataKey = Tuple(parts: seq<string>) | Name(name: string)

  /** One observation record: its numeric fields by name (`"value"` among them, normally). */
  type Point = map<string, real>

  /** The observations of one series, oldest first. */
  type Series = seq<Point>

  /** What `run` receives: every series the framework supplied, by key. */
  type Snapshot = map<DataKey, Series>

  /** Instrument identifier to target fraction of capital. */
  type Allocation = map<string, real>

  const PRIME_RATE_KEY: DataKey := Tuple(["bank_prime_loan_rate"])
  const PROFIT_KEY: DataKey := Tuple(["corporate_profit_after_tax"])
  const VALUE_FIELD: string := "value"

  const TICKER: string := "SPY"
  const INTERVAL: string := "1day"

  const DEFAULT_WEIGHT: real := 0.5
  const BULLISH_WEIGHT: real := 0.8
  const BEARISH_WEIGHT: real := 0.3

  /** The key a failed lookup names: a whole series, or a field of one point. */
  datatype MissingKey = MissingSeries(series: DataKey) | MissingField(field: string)

  /** The line `run` logs, if any. */
  datatype LogLine = AllocationSet(weight: real) | DataMissing(key: MissingKey)

  /** Everything `run` produces: the allocation it returns and the line it logs. */
  datatype Decision = Decision(allocation: Allocation, log: Option<LogLine>)

  /** The two trend booleans, both computed before the allocation is touched. */
  datatype Trend = Trend(primeRateRising: bool, profitRising: bool)

  /** The data feeds the strategy declares; each names the series key it is supplied under. */
  datatype DataSource = BankPrimeLoanRate | CorporateProfitAfterTax {
    function Key(): (k: DataKey)
      ensures k in {PRIME_RATE_KEY, PROFIT_KEY}
      ensures (k == PRIME_RATE_KEY) <==> BankPrimeLoanRate?
    {
      match this
      case BankPrimeLoanRate => PRIME_RATE_KEY
      case CorporateProfitAfterTax => PROFIT_KEY
    }
  }

  // ---------------------------------------------------------------------------
  // Lookups that fail instead of raising
  // ---------------------------------------------------------------------------

  /** `data[key]`. */
  function Lookup(data: Snapshot, key: DataKey): (r: Result<Series, MissingKey>)
    ensures r.Success? <==> key in data
    ensures r.Success? ==> r.value == data[key]
    ensures r.Failure? ==> r.error == MissingSeries(key)
  {
    if key in data then Success(data[key]) else Failure(MissingSeries(key))
  }

  /** `point["value"]`. */
  function ValueOf(point: Point): (r: Result<real, MissingKey>)
    ensures r.Success? <==> VALUE_FIELD in point
    ensures r.Success? ==> r.value == point[VALUE_FIELD]
    ensures r.Failure? ==> r.error == MissingField(VALUE_FIELD)
  {
    if VALUE_FIELD in point then Success(point[VALUE_FIELD]) else Failure(MissingField(VALUE_FIELD))
  }

  /** The latest point, `series[-1]`. */
  function Latest(series: Series): Point
    requires |series| > 1
  {
    series[|series| - 1]
  }

  /** The second-latest point, `series[-2]`. */
  function Previous(series: Series): Point
    requires |series| > 1
  {
    series[|series| - 2]
  }

  /** `series[-1]["value"] > series[-2]["value"]`, the left operand looked up first. */
  function Rising(series: Series): (r: Result<bool, MissingKey>)
    requires |series| > 1
    ensures r.Success? <==> VALUE_FIELD in Latest(series) && VALUE_FIELD in Previous(series)
    ensures r.Success? ==> (r.value <==> Latest(series)[VALUE_FIELD] > Previous(series)[VALUE_FIELD])
    ensures r.Failure? ==> r.error == MissingField(VALUE_FIELD)
  {
    var latest :- ValueOf(Latest(series));
    var previous :- ValueOf(Previous(series));
    Success(latest > previous)
  }

  // ---------------------------------------------------------------------------
  // The decision
  // ---------------------------------------------------------------------------

  /**
   * The trend evaluation inside the `try`: the first failed lookup, or no
   * trend when either series is too short to compare, or both trend booleans.
   */
  function Trends(data: Snapshot): Result<Option<Trend>, MissingKey>
  {
    var primeRate :- Lookup(data, PRIME_RATE_KEY);
    var profit :- Lookup(data, PROFIT_KEY);
    if |primeRate| > 1 && |profit| > 1 then
      var primeRateRising :- Rising(primeRate);
      var profitRising :- Rising(profit);
      Success(Some(Trend(primeRateRising, profitRising)))
    else
      Success(None)
  }

  /** The first-match decision table: both rising, else profit not rising, else unchanged. */
  function DecisionTable(t: Trend): (weight: real)
    ensures weight in {BEARISH_WEIGHT, DEFAULT_WEIGHT, BULLISH_WEIGHT}
    ensures weight == BULLISH_WEIGHT <==> t.primeRateRising && t.profitRising
    ensures weight == BEARISH_WEIGHT <==> !t.profitRising
    ensures weight == DEFAULT_WEIGHT <==> !t.primeRateRising && t.profitRising
  {
    if t.primeRateRising && t.profitRising then BULLISH_WEIGHT
    else if !t.profitRising then BEARISH_WEIGHT
    else DEFAULT_WEIGHT
  }

  /** The allocation with SPY alone, at the given weight. */
  function Only(weight: real): Allocation
  {
    map[TICKER := weight]
  }

  /** What `run` returns and logs for a snapshot. */
  function Decide(data: Snapshot): (d: Decision)
    ensures d.allocation.Keys == {TICKER}
    ensures d.allocation[TICKER] in {BEARISH_WEIGHT, DEFAULT_WEIGHT, BULLISH_WEIGHT}
    ensures d.log.Some? && d.log.value.AllocationSet? ==> d.log.value.weight == d.allocation[TICKER]
  {
    match Trends(data)
    case Failure(key) => Decision(Only(DEFAULT_WEIGHT), Some(DataMissing(key)))
    case Success(None) => Decision(Only(DEFAULT_WEIGHT), None)
    case Success(Some(t)) => Decision(Only(DecisionTable(t)), Some(AllocationSet(DecisionTable(t))))
  }

  // ---------------------------------------------------------------------------
  // The strategy object
  // ---------------------------------------------------------------------------

  /** The strategy: its fixed configuration, and `run`. */
  class TradingStrategy {
    var tickers: seq<string>
    var dataList: seq<DataSource>

    /** The configuration the constructor sets and nothing changes afterwards. */
    predicate Valid()
      reads this
    {
      tickers == [TICKER] && dataList == [BankPrimeLoanRate, CorporateProfitAfterTax]
    }

    constructor ()
      ensures Valid()
    {
      tickers := [TICKER];
      dataList := [BankPrimeLoanRate, CorporateProfitAfterTax];
    }

    /** The instruments the strategy trades. */
    function Assets(): (r: seq<string>)
      reads this
      ensures Valid() ==> r == [TICKER]
    {
      tickers
    }

    /** How often the framework evaluates the strategy: a constant, with no property beyond its value. */
    function Interval(): string
    {
      INTERVAL
    }

    /** The data feeds the strategy needs. */
    function Data(): (r: seq<DataSource>)
      reads this
      ensures Valid() ==> r == [BankPrimeLoanRate, CorporateProfitAfterTax]
      ensures Valid() ==> (set source | source in r :: source.Key()) == {PRIME_RATE_KEY, PROFIT_KEY}
    {
      assert Valid() ==> dataList[0].Key() == PRIME_RATE_KEY && dataList[1].Key() == PROFIT_KEY;
      dataList
    }

    /**
     * One evaluation cycle: start from the default weight, look both series
     * up, and overwrite the SPY weight from the trends when both series have
     * more than one point. A failed lookup stops the evaluation and leaves the
     * allocation as it stood.
     */
    method Run(data: Snapshot) returns (allocation: Allocation, log: Option<LogLine>)
      ensures Decision(allocation, log) == Decide(data)
      ensures allocation.Keys == {TICKER}
    {
      allocation := map[TICKER := DEFAULT_WEIGHT];
      log := None;
      if PRIME_RATE_KEY !in data {
        log := Some(DataMissing(MissingSeries(PRIME_RATE_KEY)));
        return;
      }
      var primeRateData := data[PRIME_RATE_KEY];
      if PROFIT_KEY !in data {
        log := Some(DataMissing(MissingSeries(PROFIT_KEY)));
        return;
      }
      var corpProfitData := data[PROFIT_KEY];
      if |primeRateData| > 1 && |corpProfitData| > 1 {
        var primeRateTrend := Rising(primeRateData);
        if primeRateTrend.Failure? {
          log := Some(DataMissing(primeRateTrend.error));
          return;
        }
        var profitTrend := Rising(corpProfitData);
        if profitTrend.Failure? {
          log := Some(DataMissing(profitTrend.error));
          return;
        }
        if primeRateTrend.value && profitTrend.value {
          allocation := allocation[TICKER := BULLISH_WEIGHT];
        } else if !profitTrend.value {
          allocation := allocation[TICKER := BEARISH_WEIGHT];
        }
        log := Some(AllocationSet(allocation[TICKER]));
      }
    }
  }
}
