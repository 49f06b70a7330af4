# Prime-rate / corporate-profit allocation rule, in Dafny

This project models `TradingStrategy`, a single-instrument trading strategy
for the `surmount` framework. Once per evaluation cycle the framework calls
`run` with a mapping from series keys to observation records (oldest first).
The rule starts from a 50 % SPY weight. It looks up the bank prime loan rate
and corporate profit after tax. When both series have more than one point,
it compares the last two `"value"` fields of each with strict `>` and applies
a first-match table:

- both rising gives 0.8;
- profit not rising gives 0.3;
- otherwise the weight stays at 0.5.

A `KeyError` anywhere in that evaluation leaves the default in place. That
covers a missing series and a point without a `"value"` field.

Files:

- `wrappers.dfy`: `Option`, and `Result` usable with `:-`. These stand in for
  the `KeyError` control flow.
- `strategy.dfy` (module `Strategy`): the data model and the lookups that fail
  instead of raising. It also holds the spec function `Decide`, which gives the
  returned allocation and the logged line, and the class `TradingStrategy`.
  That class has the configuration fields set by its constructor, the accessors
  `Assets`, `Interval` and `Data`, and the imperative method `Run`. `Run` is
  proved equal to `Decide`.
- `properties.dfy` (module `Properties`): lemmas about `Decide`. They cover
  every branch of the rule, the fallbacks, which inputs can matter, and the
  reachability of every weight.

Modelling choices:

- Series keys are `DataKey`. The framework's one-element tuple
  `("bank_prime_loan_rate",)` is `Tuple(["bank_prime_loan_rate"])`. A plain
  string key is `Name(..)`, and the code does not find it
  (`PlainNameKeysAreNotFound`).
- An observation record is `map<string, real>`.
- Weights are the exact reals 0.3, 0.5 and 0.8. The code only assigns them,
  and the series values are only compared.
- The log side channel is an extra result, `Option<LogLine>`:
  - the trend branch logs `AllocationSet(weight)`;
  - the `except` branch logs `DataMissing(key)` with the key that failed;
  - a series too short to compare logs nothing.
- `TradingStrategy.Interval` returns the constant `"1day"`.
- The model is made of functions, so repeated evaluations of one snapshot
  agree. Nothing is kept between calls.

How the code treats a few edge cases:

- A series that is present but shorter than two points writes no log line.
  Only a failed lookup writes the missing-data line.
- Series are found only under one-element tuple keys such as
  `("bank_prime_loan_rate",)`. A series under the plain string
  `"bank_prime_loan_rate"` is not found, and the default is kept.
- A point without a `"value"` field raises `KeyError` at the comparison. The
  same `except` clause catches it, so it ends like a missing series: the
  default weight and a missing-data line naming `"value"`.

## Model

| member | source | states |
|---|---|---|
| `Strategy.DataSource.Key` | cf5a35e4-4d7f-4b7b-b417-92f7f99c2272/main.py:9 | each declared data feed is supplied under one of the two keys `run` looks up, a different key for each feed |
| `Strategy.Lookup` | cf5a35e4-4d7f-4b7b-b417-92f7f99c2272/main.py:30-31 | `data[key]` succeeds exactly when the key is present, with that series; otherwise it fails naming the series key |
| `Strategy.ValueOf` | cf5a35e4-4d7f-4b7b-b417-92f7f99c2272/main.py:35 | `point["value"]` succeeds exactly when the field is present, with its value; otherwise it fails naming `"value"` |
| `Strategy.Rising` | cf5a35e4-4d7f-4b7b-b417-92f7f99c2272/main.py:35-37 | the trend is defined exactly when the latest and second-latest points both have a value; it is then "latest > previous", and otherwise a `"value"` failure |
| `Strategy.DecisionTable` | cf5a35e4-4d7f-4b7b-b417-92f7f99c2272/main.py:40-44 | the weight is in {0.3, 0.5, 0.8}; 0.8 iff both rising, 0.3 iff profit not rising, 0.5 iff only profit rising |
| `Strategy.Decide` | cf5a35e4-4d7f-4b7b-b417-92f7f99c2272/main.py:27-51 | the allocation has exactly the key SPY, its weight is one of 0.3, 0.5, 0.8, and a trend log line reports that weight |
| `Strategy.TradingStrategy.constructor` | cf5a35e4-4d7f-4b7b-b417-92f7f99c2272/main.py:6-9 | the strategy trades `["SPY"]` and declares the prime-rate and corporate-profit feeds, in that order |
| `Strategy.TradingStrategy.Run` | cf5a35e4-4d7f-4b7b-b417-92f7f99c2272/main.py:27-51 | the in-place evaluation (default, lookups, overwrite of the SPY weight, early exit on a failed lookup) returns and logs exactly what `Decide` gives, and allocates SPY alone |
| `Strategy.TradingStrategy.Assets` | cf5a35e4-4d7f-4b7b-b417-92f7f99c2272/main.py:11-14 | for a strategy as the constructor leaves it, the traded instruments are exactly `["SPY"]` |
| `Strategy.TradingStrategy.Data` | cf5a35e4-4d7f-4b7b-b417-92f7f99c2272/main.py:22-25 | for a strategy as the constructor leaves it, the declared feeds are the prime-rate and corporate-profit feeds, and their keys are exactly the two keys `run` looks up |
| `Properties.MissingSeriesKeepsDefault` | cf5a35e4-4d7f-4b7b-b417-92f7f99c2272/main.py:28-31 | an absent series gives exactly `{SPY: 0.5}`, and the log names the prime-rate key if it is absent, otherwise the profit key |
| `Properties.ShortHistoryKeepsDefault` | cf5a35e4-4d7f-4b7b-b417-92f7f99c2272/main.py:28-33 | both series present and either shorter than two points gives `{SPY: 0.5}` with no log line |
| `Properties.MissingValueKeepsDefault` | cf5a35e4-4d7f-4b7b-b417-92f7f99c2272/main.py:33-49 | if any of the four inspected points lacks `"value"`, the result is the default with a missing-`"value"` line, and no trend is applied |
| `Properties.BothRisingGivesBullish` | cf5a35e4-4d7f-4b7b-b417-92f7f99c2272/main.py:35-41 | prime rate rising and profit rising give `{SPY: 0.8}`, logged |
| `Properties.ProfitNotRisingGivesBearish` | cf5a35e4-4d7f-4b7b-b417-92f7f99c2272/main.py:37-44 | profit latest <= previous gives `{SPY: 0.3}` whatever the prime rate does, logged |
| `Properties.OnlyProfitRisingKeepsDefault` | cf5a35e4-4d7f-4b7b-b417-92f7f99c2272/main.py:40-46 | prime rate not rising and profit rising keep `{SPY: 0.5}`, and the trend line is still logged |
| `Properties.TrendLoggedIffComplete` | cf5a35e4-4d7f-4b7b-b417-92f7f99c2272/main.py:33-46 | the allocation line is logged if and only if both series have two points and all four carry a value |
| `Properties.DepartureNeedsCompleteData` | cf5a35e4-4d7f-4b7b-b417-92f7f99c2272/main.py:28-44 | a weight other than 0.5 implies complete data, and then it is 0.8 exactly when both series rise |
| `Properties.LastTwoPointsDecide` | cf5a35e4-4d7f-4b7b-b417-92f7f99c2272/main.py:30-37 | two snapshots that agree on which of the two series are present, on which can be compared, and on their last two points give the same decision |
| `Properties.PrependingHistoryChangesNothing` | cf5a35e4-4d7f-4b7b-b417-92f7f99c2272/main.py:35-37 | prepending earlier observations to a comparable series leaves the decision unchanged |
| `Properties.OtherSeriesChangeNothing` | cf5a35e4-4d7f-4b7b-b417-92f7f99c2272/main.py:30-31 | adding or replacing any other series leaves the decision unchanged |
| `Properties.PlainNameKeysAreNotFound` | cf5a35e4-4d7f-4b7b-b417-92f7f99c2272/main.py:30 | series keyed by plain strings are not found: default weight, prime-rate key reported missing |
| `Properties.EveryWeightIsReachable` | cf5a35e4-4d7f-4b7b-b417-92f7f99c2272/main.py:28-44 | each of 0.3, 0.5 and 0.8 is the outcome of some snapshot, so no row of the table is dead |
| `Properties.AllocatesOnlyDeclaredAssets` | cf5a35e4-4d7f-4b7b-b417-92f7f99c2272/main.py:11-14 | the allocation's instruments are exactly those `assets` declares |
| `Properties.UndeclaredDataChangesNothing` | cf5a35e4-4d7f-4b7b-b417-92f7f99c2272/main.py:22-25 | a series under a key of no declared data feed has no effect on the decision |

`TradingStrategy.Interval` (main.py:16-20) has no row. It returns the constant
`"1day"`, and there is no property of it beyond that value.

## Left out

- The `surmount` framework is not part of this model: the `Strategy` base
  class, the `TargetAllocation` wrapper and the data descriptor classes. The
  result is a plain map. `DataSource.Key` records one assumption about the
  descriptors: each is supplied under the one-element tuple of its series name.
  This is exactly the key `run` looks up.
- `log` is not modelled as I/O. Only which line would be written is modelled,
  with its weight or failed key, not the formatted text.
- Floating point is not modelled: values are exact reals, so float rounding
  and NaN are not captured. A NaN makes every comparison with it false. A NaN
  among the last two profit values therefore gives 0.3. A NaN among the last
  two prime-rate values only makes the prime-rate trend false: the result is
  0.3 if profit does not rise and 0.5 if it does.
- Non-numeric fields of an observation record are not modelled. Two string
  values would compare lexicographically without an error. Values of mixed
  types, or `None`, raise `TypeError` at the comparison, and `run` does not
  catch that.
- Scheduling and data fetching are external. `TradingStrategy.Interval` only
  returns `"1day"`.
- Series are modelled as lists only. A dict-shaped series passes the length
  test, then raises `KeyError` on the lookup of `[-1]`. `run` catches that
  `KeyError` and keeps the default weight, logging the missing key `-1`. The
  model has no such series and no such failed key.
- Other exceptions that `run` does not catch are not modelled. Examples are
  an input that is not a mapping, or a series without a length.
