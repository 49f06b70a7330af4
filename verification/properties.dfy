/** What the allocation rule promises, stated over `Strategy.Decide`. */
module Properties {
  import opened Wrappers
  import opened Strategy

  /** Both series are present and each has at least two points. */
  predicate HasHistory(data: Snapshot)
  {
    PRIME_RATE_KEY in data && PROFIT_KEY in data
    && |data[PRIME_RATE_KEY]| > 1 && |data[PROFIT_KEY]| > 1
  }

  /** The four points the rule inspects all carry a `"value"` field. */
  predicate Complete(data: Snapshot)
  {
    HasHistory(data)
    && VALUE_FIELD in Latest(data[PRIME_RATE_KEY]) && VALUE_FIELD in Previous(data[PRIME_RATE_KEY])
    && VALUE_FIELD in Latest(data[PROFIT_KEY]) && VALUE_FIELD in Previous(data[PROFIT_KEY])
  }

  /** Latest value above the previous one. */
  predicate Up(series: Series)
    requires |series| > 1 && VALUE_FIELD in Latest(series) && VALUE_FIELD in Previous(series)
  {
    Latest(series)[VALUE_FIELD] > Previous(series)[VALUE_FIELD]
  }

  /** A missing series leaves the default and logs the first key that was not found. */
  lemma MissingSeriesKeepsDefault(data: Snapshot)
    requires PRIME_RATE_KEY !in data || PROFIT_KEY !in data
    ensures Decide(data).allocation == Only(DEFAULT_WEIGHT)
    ensures Decide(data).log
         == Some(DataMissing(MissingSeries(if PRIME_RATE_KEY !in data then PRIME_RATE_KEY else PROFIT_KEY)))
  {
  }

  /** Both series present but one too short: the default, no comparison and no log line. */
  lemma ShortHistoryKeepsDefault(data: Snapshot)
    requires PRIME_RATE_KEY in data && PROFIT_KEY in data
    requires |data[PRIME_RATE_KEY]| < 2 || |data[PROFIT_KEY]| < 2
    ensures Decide(data) == Decision(Only(DEFAULT_WEIGHT), None)
  {
  }

  /** A missing `"value"` among the four inspected points: the default, nothing partially applied. */
  lemma MissingValueKeepsDefault(data: Snapshot)
    requires HasHistory(data) && !Complete(data)
    ensures Decide(data) == Decision(Only(DEFAULT_WEIGHT), Some(DataMissing(MissingField(VALUE_FIELD))))
  {
  }

  /** Prime rate and profit both rising: 0.8. */
  lemma BothRisingGivesBullish(data: Snapshot)
    requires Complete(data)
    requires Up(data[PRIME_RATE_KEY]) && Up(data[PROFIT_KEY])
    ensures Decide(data) == Decision(Only(BULLISH_WEIGHT), Some(AllocationSet(BULLISH_WEIGHT)))
  {
  }

  /** Profit not rising: 0.3, whatever the prime rate does. */
  lemma ProfitNotRisingGivesBearish(data: Snapshot)
    requires Complete(data)
    requires !Up(data[PROFIT_KEY])
    ensures Decide(data) == Decision(Only(BEARISH_WEIGHT), Some(AllocationSet(BEARISH_WEIGHT)))
  {
  }

  /** Prime rate not rising, profit rising: the default stands, but the trend line is logged. */
  lemma OnlyProfitRisingKeepsDefault(data: Snapshot)
    requires Complete(data)
    requires !Up(data[PRIME_RATE_KEY]) && Up(data[PROFIT_KEY])
    ensures Decide(data) == Decision(Only(DEFAULT_WEIGHT), Some(AllocationSet(DEFAULT_WEIGHT)))
  {
  }

  /** The trend line is logged exactly when all four points could be compared. */
  lemma TrendLoggedIffComplete(data: Snapshot)
    ensures (Decide(data).log.Some? && Decide(data).log.value.AllocationSet?) <==> Complete(data)
  {
  }

  /** A weight other than the default needs complete data. */
  lemma DepartureNeedsCompleteData(data: Snapshot)
    requires Decide(data).allocation[TICKER] != DEFAULT_WEIGHT
    ensures Complete(data)
    ensures Decide(data).allocation[TICKER] == BULLISH_WEIGHT <==> Up(data[PRIME_RATE_KEY]) && Up(data[PROFIT_KEY])
  {
  }

  /** Two series agree on whether they can be compared and, if so, on their last two points. */
  predicate SameTail(s: Series, t: Series)
  {
    (|s| > 1 <==> |t| > 1)
    && (|s| > 1 ==> s[|s| - 2..] == t[|t| - 2..])
  }

  /** Only the last two points of each series, and only the two series, decide the outcome. */
  lemma LastTwoPointsDecide(data: Snapshot, other: Snapshot)
    requires (PRIME_RATE_KEY in data <==> PRIME_RATE_KEY in other)
    requires (PROFIT_KEY in data <==> PROFIT_KEY in other)
    requires PRIME_RATE_KEY in data ==> SameTail(data[PRIME_RATE_KEY], other[PRIME_RATE_KEY])
    requires PROFIT_KEY in data ==> SameTail(data[PROFIT_KEY], other[PROFIT_KEY])
    ensures Decide(data) == Decide(other)
  {
  }

  /** Prepending earlier observations to a comparable series changes nothing. */
  lemma PrependingHistoryChangesNothing(data: Snapshot, key: DataKey, earlier: Series)
    requires key in data && |data[key]| > 1
    ensures Decide(data[key := earlier + data[key]]) == Decide(data)
  {
  }

  /** A series the rule does not look up has no effect. */
  lemma OtherSeriesChangeNothing(data: Snapshot, key: DataKey, series: Series)
    requires key != PRIME_RATE_KEY && key != PROFIT_KEY
    ensures Decide(data[key := series]) == Decide(data)
  {
  }

  /** Series keyed by a plain name rather than a one-element tuple are not found. */
  lemma PlainNameKeysAreNotFound(prime: Series, profit: Series)
    ensures Decide(map[Name("bank_prime_loan_rate") := prime, Name("corporate_profit_after_tax") := profit])
         == Decision(Only(DEFAULT_WEIGHT), Some(DataMissing(MissingSeries(PRIME_RATE_KEY))))
  {
  }

  /** A comparable series whose last two values are `previous` then `latest`. */
  function TwoPoints(previous: real, latest: real): (s: Series)
    ensures |s| == 2 && VALUE_FIELD in Latest(s) && VALUE_FIELD in Previous(s)
    ensures Latest(s)[VALUE_FIELD] == latest && Previous(s)[VALUE_FIELD] == previous
  {
    [map[VALUE_FIELD := previous], map[VALUE_FIELD := latest]]
  }

  /** Every weight of the decision table is the outcome of some snapshot, so no row is dead. */
  lemma EveryWeightIsReachable(weight: real)
    requires weight in {BEARISH_WEIGHT, DEFAULT_WEIGHT, BULLISH_WEIGHT}
    ensures exists data :: Decide(data).allocation[TICKER] == weight
  {
    var rising := TwoPoints(100.0, 110.0);
    var falling := TwoPoints(110.0, 105.0);
    var data :=
      if weight == BULLISH_WEIGHT then map[PRIME_RATE_KEY := TwoPoints(3.0, 3.25), PROFIT_KEY := rising]
      else if weight == BEARISH_WEIGHT then map[PRIME_RATE_KEY := TwoPoints(3.25, 3.0), PROFIT_KEY := falling]
      else map[PRIME_RATE_KEY := TwoPoints(3.25, 3.0), PROFIT_KEY := rising];
    assert Complete(data);
    assert Decide(data).allocation[TICKER] == weight;
  }

  /** The strategy allocates to exactly the instruments it declares. */
  lemma AllocatesOnlyDeclaredAssets(strategy: TradingStrategy, data: Snapshot)
    requires strategy.Valid()
    ensures Decide(data).allocation.Keys == set t | t in strategy.Assets()
  {
  }

  /** A series not among the declared data feeds has no effect on the decision. */
  lemma UndeclaredDataChangesNothing(strategy: TradingStrategy, data: Snapshot, key: DataKey, series: Series)
    requires strategy.Valid()
    requires forall source :: source in strategy.Data() ==> source.Key() != key
    ensures Decide(data[key := series]) == Decide(data)
  {
    assert BankPrimeLoanRate in strategy.Data() && CorporateProfitAfterTax in strategy.Data();
    OtherSeriesChangeNothing(data, key, series);
  }
}
