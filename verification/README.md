# EngageLink data layer, in Dafny

A model of the data-processing layer of PyEngage's `EngageLink` client for the efergy energy-monitoring
platform (`lib/engage_api.py`):

- **Timestamp conventions.** `efergy_ts_to_datetime` reads milliseconds since the UTC epoch, and
  `datetime_to_efergy_ts` returns seconds since the epoch (`Timestamps`).
- **Credential selection** in the constructor, with the token exchange as a function parameter
  `fetch` (`Link.ResolveToken`, `Link.EngageLink.Open`).
- **Query assembly.** `merge_dicts` is a loop of single-key updates (`Dicts.MergeDicts`). `call`
  builds the request, and `getCost` and `getTimeSeries` build their keyword arguments
  (`Link.EngageLink.Call`, `Link.CostArgs`, `Link.TimeSeriesArgs`). A request is a value: the
  url and the parameters that would be url-encoded into it.
- **Response normalisation** (`SeriesParse`):
  - `getNumber`, with `float()` as an abstract parser.
  - `int(key)`, as a concrete parser of ASCII digits (`Numbers`).
  - `val[0]`.
  - The list comprehension, which follows an explicit iteration order of the dictionary.
  - `sorted`, as an insertion sort proved ascending and a permutation.
- **Energy and cost integration** (`Integration`):
  - `integrateTimeSeriesMulti` and `computeCost` are methods with the source's loops. Each is proved
    equal to a specification function: `Integrated` and `Cost`, respectively.
  - `Cost` is a sum over the buckets' finite set (`Sums`), so it does not depend on the dictionary's
    order.
  - `integrateTimeSeries` is the single-bucket case.
- **A worked case** (`WorkedCase`): a three-minute answer whose middle reading is `"undef"`.

Python's `None` is `JNull`. A raised exception is an `Err` of `Outcomes.Error`. Readings and
times in seconds are `real`, and instants are integer milliseconds.

Behaviours of the code worth knowing:

- **`"undef"` readings are kept as 0.** `float("undef")` raises, so `getNumber` returns 0, and
  the sample stays in the series (`SeriesParse.UndefKept`). The answer
  `{"0": [100], "60000": ["undef"], "120000": [200]}` parses to three samples and integrates to
  5.0, because dt is 60 s (`WorkedCase.UndefSeries`, `WorkedCase.UndefSeriesEnergy`). Dropping the
  `"undef"` sample would make dt 120 s and the total 10.0.
- **Encoding gives seconds.** Decoding reads milliseconds, so decoding then encoding divides by
  1000. It returns its argument only at 0 (`Timestamps.EncodeDecode`,
  `Timestamps.EncodeDecodeNotIdentity`).
- **A given token wins.** The constructor accepts a username and password given together with a
  token, and ignores them.
- **Each error stands for a Python exception.** The cases of `Outcomes.Error` map as follows:
  - `ConfigError` is the `RuntimeError` of the constructor.
  - `NetworkError` is whatever `urlopen` or `json.loads` raise.
  - `MissingField` is the `KeyError` of indexing an answer without that field, or the `TypeError` of
    indexing one that is not a dictionary.
  - `NotAMapping` is the `AttributeError` of `iteritems` on a `data` that is not a dictionary.
  - `BadTimestamp` is the `ValueError` of `int(key)`.
  - `NoReading` is the `IndexError`, `TypeError` or `KeyError` of `val[0]`.
  - `InsufficientData` is the `IndexError` of reading the second sample of a shorter series.
- **`getTimeSeries` parses.** It returns the parsed series, not the raw `data` mapping.
- **`int()` skips whitespace after the sign.** Python 2's `int()` skips whitespace around the number
  and again between the sign and the digits, so `int("- 1")` is -1 (`Numbers.ParseSignedSpaced`).
- **Zone offsets may be fractional.** The offset is any number of hours, so 5.5 (UTC+5:30) is sent
  as -330 minutes (`Link.HalfHourOffset`).

## Model

| member | source | states |
|---|---|---|
| Outcomes.Field | lib/engage_api.py:100-101 | indexing an answer succeeds exactly when it is an object with that field, gives that field's value, and otherwise fails with MissingField |
| Timestamps.Decode | lib/engage_api.py:45-55 | the efergy timestamp is read as milliseconds since the epoch |
| Timestamps.Seconds | lib/engage_api.py:67 | total_seconds of a difference: the millisecond gap divided by 1000 |
| Timestamps.Encode | lib/engage_api.py:58-67 | the encoding is the instant's milliseconds divided by 1000, that is, seconds since the epoch |
| Timestamps.EncodeDecode | lib/engage_api.py:45-67 | encoding a decoded timestamp m gives m/1000 |
| Timestamps.EncodeEpoch | lib/engage_api.py:58-67 | the epoch, obtained as efergy_ts_to_datetime(0), encodes to 0 |
| Timestamps.EncodeDecodeNotIdentity | lib/engage_api.py:45-67 | decode then encode returns its argument if and only if it is 0 |
| Timestamps.DecodeOrder | lib/engage_api.py:45-55 | decoding is injective and preserves order, in both directions |
| Timestamps.EncodeOrder | lib/engage_api.py:58-67 | encoding is strictly monotone and injective, in both directions |
| Timestamps.SecondsIsEncodedDifference | lib/engage_api.py:67 | the span between two instants is the difference of their encodings |
| Dicts.MergeDicts | lib/engage_api.py:34-42 | the keys are those of both dictionaries; the second dictionary's value wins on a clash, the first's is kept otherwise; the inputs are untouched |
| Link.TokenRequest | lib/engage_api.py:100-101 | the token exchange goes to base + "get_token" with exactly username, password and device "android" |
| Link.ResolveToken | lib/engage_api.py:97-103 | a non-None token is kept verbatim; the configuration error happens exactly when there is no token and either username or password is None; with credentials and no token, a failed exchange is a NetworkError and a completed one gives exactly the answer's "token" field, or the error of reading it |
| Link.TokenIgnoresCredentials | lib/engage_api.py:97-98 | with a token given, the username, the password and the token service do not affect the outcome |
| Link.EngageLink.constructor | lib/engage_api.py:98 | the link holds the token it is given |
| Link.EngageLink.Open | lib/engage_api.py:86-103 | construction succeeds exactly when credential selection does, the new link holds the selected token, and otherwise the selection's error is raised |
| Link.EngageLink.Call | lib/engage_api.py:105-111 | the request goes to base_proxy + method; its parameters are the caller's plus "token"; caller values win; the stored token is sent unless the caller passes one |
| Link.CostArgs | lib/engage_api.py:139-141 | getCost sends exactly offset, fromTime and toTime, and never the period; the hour offset may be fractional |
| Link.CostArgsIgnorePeriod | lib/engage_api.py:129-141 | as written, two different periods give the same getCost arguments |
| Link.CostArgsWithPeriod | lib/engage_api.py:129-141 | with the period passed on, the arguments are the as-written ones plus period |
| Link.CostArgsWithPeriodDistinguish | lib/engage_api.py:129-141 | with the period passed on, different periods give different arguments |
| Link.TimeSeriesArgs | lib/engage_api.py:156-161 | getTimeSeries sends exactly offset, fromTime, toTime, aggPeriod and aggFunc, the last two verbatim; the hour offset may be fractional |
| Link.QueryArgsEncoding | lib/engage_api.py:139-161 | in both queries, for any real hour offset, the offset is negated and in minutes, and both ends are sent as seconds since the epoch |
| Link.HalfHourOffset | lib/engage_api.py:139-161 | an offset of 5.5 hours is sent as -330 minutes by both queries |
| Link.EngageLink.CostQuery | lib/engage_api.py:139-141 | getCost's request, as written: the stored token merged with CostArgs, with no period parameter |
| Link.EngageLink.CostQueryWithPeriod | lib/engage_api.py:129-141 | getCost's request with the period sent as the caller gave it |
| Link.EngageLink.TimeSeriesQuery | lib/engage_api.py:156-161 | getTimeSeries's request: the stored token merged with TimeSeriesArgs |
| Numbers.ParseInt | lib/engage_api.py:177 | int(key): a key of whitespace only is refused; Numbers.ParseIntAccepts and Numbers.ParseIntShape state exactly which keys it accepts and with what value |
| Numbers.ParseIntAccepts | lib/engage_api.py:177 | int() accepts whitespace, then nothing or a sign followed by whitespace, then one or more digits, then whitespace; the value is the digits read in base ten, leading zeros included, negated after a minus |
| Numbers.ParseIntShape | lib/engage_api.py:177 | every key int() accepts has that shape and that value, so inner spaces, misplaced or repeated signs and a lone sign are refused |
| Numbers.ParseShow | lib/engage_api.py:177 | int() reads back every key written as str(n) as n |
| Numbers.ParsePadded | lib/engage_api.py:177 | for every integer n and every two whitespace strings, int() reads str(n) with those strings around it as n |
| Numbers.ParseSignedSpaced | lib/engage_api.py:177 | int() reads a sign, any whitespace, then the digits of n as n with that sign |
| Numbers.ParseRejectsEmpty | lib/engage_api.py:177 | int() refuses the empty key |
| Numbers.ParseRejectsUndef | lib/engage_api.py:177 | int() refuses "undef" as a key |
| Numbers.ParseRejectsStray | lib/engage_api.py:177 | int() refuses every key holding a character that is not a digit, a sign or whitespace |
| Numbers.ParseRejectsFraction | lib/engage_api.py:177 | int() refuses every key holding a decimal point |
| SeriesParse.GetNumber | lib/engage_api.py:170-174 | getNumber never fails: a number is kept, a boolean is 1 or 0, a string is its float() value or 0 where float() raises, null, a list or an object is 0, and anything non-zero comes from a number, true or a parsable string |
| SeriesParse.FirstReading | lib/engage_api.py:177 | val[0] exists exactly for a non-empty list or string, and is a list's first element or a string's first character |
| SeriesParse.ParseEntry | lib/engage_api.py:177 | an entry converts exactly when int() accepts its key and its value has a first element, to (decode(int(key)), getNumber(val[0])); a bad key is reported first |
| SeriesParse.ParseItems | lib/engage_api.py:177 | the comprehension succeeds exactly when every entry converts, and then lists each entry's sample in iteration order |
| SeriesParse.ParseResults | lib/engage_api.py:164-177 | parseResults: a missing data field is a MissingField error, a data field that is not a dictionary is NotAMapping, and a result is ascending with one sample per entry |
| SeriesParse.Sort | lib/engage_api.py:176 | the result is ascending by (time, reading) and a permutation of the input |
| SeriesParse.SortedUnique | lib/engage_api.py:176 | two ascending permutations of one list are equal, so sorted has one possible result |
| SeriesParse.IterationOrderKeys | lib/engage_api.py:177 | an iteration order lists every key of data exactly once |
| SeriesParse.ParseResultsFailure | lib/engage_api.py:176-177 | parseResults succeeds exactly when data is present, is a dictionary and all its entries convert |
| SeriesParse.ParseResultsContents | lib/engage_api.py:176-177 | when every entry converts, the result is ascending, has one sample per entry, holds each entry's sample and nothing else |
| SeriesParse.ParseResultsSorts | lib/engage_api.py:176-177 | a successful result is the sorted list of the entries' samples |
| SeriesParse.ParseResultsOrderFree | lib/engage_api.py:176-177 | success and the returned list do not depend on the dictionary's iteration order |
| SeriesParse.MapSeqPermutation | lib/engage_api.py:177 | converting two orders of the same keys gives permutations of one list |
| SeriesParse.UndefKept | lib/engage_api.py:170-177 | an "undef" reading does not abort parsing, and its sample is kept with value 0 at its own time |
| Sums.SetSumRemove | lib/engage_api.py:277-278 | adding terms over a dictionary's keys may start from any key: the total does not depend on the visiting order |
| Integration.BucketsAre | lib/engage_api.py:255-262 | the bucket keys are exactly the mapping's images of the samples' times |
| Integration.WeightedPartition | lib/engage_api.py:255-262 | the buckets partition the samples: the weighted bucket sums add up to the weighted sum over the samples |
| Integration.IntegrateTimeSeriesMulti | lib/engage_api.py:243-267 | fails with fewer than two samples; otherwise one entry per bucket key, holding the bucket's reading sum times dt/3600, with dt the gap between the first two samples |
| Integration.TrivialTimeMapping | lib/engage_api.py:239 | integrateTimeSeries's mapping sends every time to bucket 0 |
| Integration.SingleBucket | lib/engage_api.py:239 | a mapping with one value puts every reading into that one bucket |
| Integration.IntegrateTimeSeries | lib/engage_api.py:233-241 | fails exactly on fewer than two samples; otherwise the sum of all readings times dt/3600 |
| Integration.MultiSumsToSingle | lib/engage_api.py:233-267 | whatever the mapping, the bucket energies add up to integrateTimeSeries |
| Integration.ComputeCost | lib/engage_api.py:269-279 | integration's error, or the sum over the buckets of key times energy, whatever the dictionary's order |
| Integration.CostPerSample | lib/engage_api.py:269-279 | cost is linear in the readings: each reading times the tariff at its time, all times dt/3600 |
| Integration.ConstantTariffCost | lib/engage_api.py:269-279 | a constant tariff p costs p times integrateTimeSeries |
| Integration.SortedInterval | lib/engage_api.py:250 | on a series in parseResults' order, dt is never negative, and is zero exactly when the first two samples share their time |
| WorkedCase.WrittenKeysAreMinuteKeys | lib/engage_api.py:177 | int() reads "0", "60000" and "120000" as those numbers of milliseconds |
| WorkedCase.EntriesConvert | lib/engage_api.py:177 | each entry of the three-minute answer converts to its sample, the "undef" one to 0 |
| WorkedCase.UndefSeries | lib/engage_api.py:176-177 | in every iteration order, the three-minute answer parses to its three samples in time order, with 0 for "undef" |
| WorkedCase.UndefSeriesEnergy | lib/engage_api.py:233-241 | that series integrates to 5.0: dt is 60 s and the readings add up to 300 |
| WorkedCase.UndefSeriesCost | lib/engage_api.py:269-279 | at a constant tariff of 0.2 that series costs 1.0 |

## Left out

- The network: `json_get_url` and `json_get_url_params`, the HTTP request, and JSON decoding.
  - A request is returned as a value.
  - The token exchange is the parameter `fetch`, where `None` stands for a transport or decoding
    failure.
  - `urlencode` is not modelled: the parameters stay a map.
- `getCost`'s reading of `result['sum']` and `result['units']` from the answer: the answer comes
  from the network. Each read is a field access as `Outcomes.Field` models it.
- `getInstant`, `getMontlyBudget`, `getDay`, `getWeek`, `getMonth`, `getYear` and
  `makeTimeSeriesQuery`: one network call each, plus a field read or `parseResults`.
- `getImageDate` and `getTimeSeriesBetweenImages`: image-file metadata and `strptime`.
- The default arguments computed with `datetime.now()`: they depend on the wall clock. Every
  argument is explicit in the model.
- Timestamps.Encode: instants are whole milliseconds. The microseconds of a caller's datetime,
  which `total_seconds()` keeps (as in `datetime.now()`), are not modelled.
- Timestamps.Decode: it keeps milliseconds exactly. `utcfromtimestamp`'s division by 1000.0,
  rounding to microseconds and out-of-range errors are not modelled.
- SeriesParse.GetNumber: `float()` is an abstract parser. The JSON number type is `real`, so
  integers and floats are not told apart.
- Floating point: readings, dt/3600 and the cost sum are exact reals. There is no rounding, NaN,
  infinity or overflow. Float addition is not associative, so the source's cost can depend on the
  dictionary's order by rounding. The model's cost does not depend on it.
- Numbers.ParseInt: it accepts ASCII digits, an optional sign and ASCII whitespace. It does not
  model the other Unicode digits and spaces Python 2's `int()` accepts on a unicode key.
- SeriesParse.Sort: it is an insertion sort, not Python's timsort. `SortedUnique` shows that every
  ascending permutation is the same list, so the two agree. Comparing NaN readings is not modelled.
- The iteration order of a dictionary is an explicit parameter in `ParseResults`. In the loops of
  `IntegrateTimeSeriesMulti` and `ComputeCost`, it is the choice of the next key.
- The GUI (`app/monitor.py`, `widgets/live.py`) and the script `test.py` are not part of this model.

## Findings

| source | as written | input that shows it | evidently intended | confidence | as-written member | corrected member |
|---|---|---|---|---|---|---|
| lib/engage_api.py:129-141 | getCost accepts a `period` argument, documented as the aggregation period, but does not pass it to `call`, so it has no effect | `getCost(period='day')` and `getCost(period='month')` with the same other arguments send identical requests | `period` is sent with the other query parameters | medium; not executed | Link.CostArgsIgnorePeriod | Link.CostArgsWithPeriodDistinguish |
