# async-weather: the collection bookkeeping, in Dafny

This project models the bookkeeping of `main.py` in the async-weather
repository. That script asks weather providers (OpenWeatherMap and
WeatherStack) for the temperature of every city in a list, collects the
readings and the failed cities in a shared `Data` object, and prints how many
cities were counted, how many attempts failed and the average temperature.

The model covers:

- **`Data`, the result collector** (`collector.dfy`). It is a class whose
  fields are updated in place by `append_data` and `record_failed_city`:
  `data: seq<Json>`, `failedCities: set<string>` and
  `failedCitiesCounter: nat`. The two mutating methods are specified by a
  pure step function `Apply` on a `CollectorState` value; the getters
  return the field they read. The lemmas are about that
  function and about `ApplyAll`, the effect of a sequence of calls. They
  prove that at most as many distinct cities fail as attempts do, that
  every call is counted exactly once, and that the final state does not
  depend on the order of the calls, except for the order of the readings.
- **The two adapters** (`providers.dfy`). This covers the `units or "Metric"`
  default, the URLs `get_url` builds, and the decision `collect_temperature`
  makes on a decoded payload (`Extract`). The URL lemmas read each URL back
  field by field, provided the key, the city and the units contain no `&`:
  `get_url` does not URL-encode them, so a city such as `A&B` splits into two
  fields.
  - `Extract` mirrors `payload.get(outer).get(inner)`. Python's `.get` exists
    only on a dict and yields `None` for a missing key.
  - The reading is appended exactly when the payload is an object whose
    `"main"` (or `"current"`) entry is an object. The reading is appended
    whatever it is, and a missing `"temp"` appends `None`.
  - Every other payload records the city as failed.
- **`calculate_average_temp`** (`average.dfy`), with its `float()`
  conversions and its divisor `len(data) - failed`, computed on exact reals.
- **The dispatch in `main`** (`dispatch.dfy`). It makes one task per
  (api, city) pair. The tasks run on one asyncio event loop, and no
  collector method awaits, so each collector update is atomic. The tasks
  are therefore modelled as a nested sequential loop over one shared `Data`
  object. `Run` returns the figures `main` computes for its report; they
  are printed only when the average does not raise. Its contract states that
  readings plus failed attempts equal `len(apis) * len(cities)`.

JSON `null` and Python `None` are the same value (`JNull`). The decoded
response of each task is an input (`payloads[i][j]` for the i-th api and the
j-th city). The API keys `os.getenv` returns are an input (`Env`, `None` when
unset). Python's float parser for strings is a parameter (`parseFloat`).

Two points of the code differ from its evident design, and the model follows
the code:
- The average divides by `len(data) - failed` rather than by the number of
  readings.
- A missing reading is appended as `None` rather than counted as a failure.

Both are listed under Findings, each with a corrected definition proved
beside it. The dispatch model (`Run`) keeps the code as written, because its
report is the one the program actually prints.

## Model

| member | source | states |
|---|---|---|
| `Collector.Apply` | main.py:69-77 | one collector call adds exactly one to readings plus failed attempts and keeps distinct failures ≤ failed attempts |
| `Collector.ApplyAll` | main.py:63-80 | a sequence of calls adds its length to readings plus failed attempts and keeps the invariant |
| `Collector.ApplyAllContents` | main.py:69-77 | after any calls, `data` is the appended readings in call order, `failed_cities` the failed cities, the counter the number of failures |
| `Collector.ReachableStatesAreConsistent` | main.py:64-77 | from the empty state built by `__init__`, distinct failed cities ≤ failed attempts, and readings plus failed attempts equal the number of calls |
| `Collector.RecordTwice` | main.py:75-77 | recording the same city twice adds 2 to the counter and at most 1 to the set, leaving `data` alone |
| `Collector.ApplyAllOrderIndependent` | main.py:108-111 | tasks reporting in any order leave the same failed set, the same counter and the same readings up to order |
| `Collector.Data.constructor` | main.py:64-67 | the collector starts with no readings, no failed cities and a zero counter |
| `Collector.Data.AppendData` | main.py:69-70 | `data` becomes old `data` plus `[temp]`; the failed set and counter do not change |
| `Collector.Data.GetData` | main.py:72-73 | returns the readings collected |
| `Collector.Data.RecordFailedCity` | main.py:75-77 | counter increases by exactly 1, the set becomes old set ∪ {city}, `data` does not change |
| `Collector.Data.GetFailedCities` | main.py:79-80 | returns the set of distinct failed cities |
| `Providers.NewOpenWeatherMap` | main.py:13-18 | units are "Metric" exactly when none, an empty string or "Metric" was given; the key is the environment's |
| `Providers.NewAdapter` | main.py:111 | the adapter a task builds carries its city and is of the api's class |
| `Providers.OpenWeatherMapUrlFields` | main.py:20-22 | the URL is the base URL followed by the `&`-separated fields `appid=<key>`, `q=<city>`, `units=<units>`, then `q` |
| `Providers.WeatherStackUrlFields` | main.py:45-47 | the URL is the base URL followed by `access_key=<key>`, `query=<city>`, then `q` |
| `Providers.DefaultOpenWeatherMapUrl` | main.py:15-22 | the URL a task requests ends in `units=Metric` and `None` (default units, default `q`) |
| `Providers.DefaultWeatherStackUrl` | main.py:45-47 | the URL a WeatherStack task requests ends in `query=<city>` and `None` |
| `Providers.Extract` | main.py:29-35 | exactly one update: an append iff the payload is an object whose "main" (WeatherStack, lines 54-60: "current") entry is an object; the value is its "temp" ("temperature") entry or `None`; otherwise the city fails |
| `Providers.MissingTempIsAppendedAsNone` | main.py:32-33 | a "main" object without "temp" appends `None`, not a failure |
| `Providers.ExtractStrict` | main.py:29-35 | corrected extraction: appends only a numeric reading, and then the same one `Extract` appends |
| `Average.ToFloat` | main.py:89 | `float()` keeps numbers and raises `TypeError` exactly on `None`, lists and dicts |
| `Average.TotalOkIffConvertible` | main.py:88-89 | the summing loop completes iff every reading converts |
| `Average.TotalPermutation` | main.py:87-89 | the sum does not depend on the order of the readings |
| `Average.CalculateAverageTemp` | main.py:83-92 | the sentinel iff `data` is empty; `ZeroDivisionError` iff every reading converts and `failed == len(data)`; otherwise the sum over `len(data) - failed` or the first conversion error |
| `Average.AverageOrderIndependent` | main.py:87-91 | the average does not depend on the order of convertible readings |
| `Average.AsWrittenIsMeanWithoutFailures` | main.py:91 | with `failed = 0` the result is the arithmetic mean of the readings |
| `Average.AsWrittenOvershoots` | main.py:91 | readings 10 and 20 with one failed attempt give 30 where the mean is 15 |
| `Average.AsWrittenDividesByZero` | main.py:91 | one reading with one failed attempt raises `ZeroDivisionError` |
| `Average.NoneReadingRaises` | main.py:89 | a `None` reading makes the average raise `TypeError` |
| `Average.MeanTempWithinBounds` | main.py:91 | corrected mean: the mean of readings in [lo, hi] lies in [lo, hi] |
| `Dispatch.RowUpdates` | main.py:110-111 | one update per city for one api |
| `Dispatch.TaskUpdates` | main.py:109-111 | exactly `len(apis) * len(cities)` updates in all |
| `Dispatch.CollectTemperature` | main.py:29-35 | one task makes exactly the one collector update `Extract` decides |
| `Dispatch.DispatchRow` | main.py:110-111 | the inner loop applies that api's updates to the collector in order |
| `Dispatch.DispatchAll` | main.py:109-111 | the nested loop applies every task's update to the collector |
| `Dispatch.Run` | main.py:104-119 | readings plus failed attempts equal `len(apis) * len(cities)`; participants are `len(cities)`; the figures are those of the final collector state |
| `Dispatch.ReportOrderIndependent` | main.py:108-119 | the printed figures do not depend on the order in which tasks report, when every reading converts |
| `Dispatch.MissingTempCrashesReport` | main.py:32-33 | a run whose only payload lacks "temp" collects `[None]` and the average raises `TypeError` |
| `Dispatch.StrictUpdatesNeverRaise` | main.py:89-91 | with the corrected extraction every reading converts and the corrected mean never raises |

## Left out

- `get_response` (main.py:24-27, 49-52): the HTTP session and request are network I/O. The decoded payload of each task is an input. A non-JSON response raises outside the `try`, and that is not modelled.
- `dotenv.load_dotenv` and `os.getenv` (main.py:9, 16, 41): the environment lookup. The keys are the `Env` input.
- `get_cities` (main.py:95-101): the file read and `json.load`. The city list is an input of type `seq<string>`.
- `asyncio.TaskGroup` (main.py:108-111): concurrency and scheduling. `Run` stands for the join and assumes that no task raises. A raising task would cancel its siblings and break the accounting.
- Dispatch.Run: the tasks are applied in creation order only. `ReportOrderIndependent` and `Collector.ApplyAllOrderIndependent` cover any other completion order.
- Floating point: sums and quotients are exact reals. `round(..., 2)` (main.py:91) is not applied. Overflow in `float()` of a huge integer is not modelled.
- Average.AverageOrderIndependent: holds because the model's sum is exact. Python's float sum depends on the order in its last bits, so after `round(..., 2)` two orders can differ at a rounding boundary.
- Dispatch.ReportOrderIndependent: holds for the same reason, on exact sums only.
- Python's float parser for strings (main.py:89) is the `parseFloat` parameter. Its result `None` stands for its `ValueError`. A `real` cannot express what `float("nan")` or `float("inf")` return, so those successful parses are not modelled.
- `calculate_average_temp` called with `data=None` (main.py:83-84): `main` never does this, so `data` is always a list.
- `print` (main.py:116-119): presentation. `Run` returns the figures `main` computes as a `Report`.
- Dispatch.Run: when `averageTemp` is `Raised(e)`, `calculate_average_temp` raises at main.py:115 before any `print`, so `main` prints nothing and ends with `e`; the other three figures are computed but never printed.
- Collector.Data.GetData: Python returns the list object itself, so a caller could alias it. The model returns the sequence value.
- Collector.Data.GetFailedCities: Python returns the set object itself, so it can be aliased as well. The model returns the set value.

## Findings

| source | as written | input that shows it | evidently intended | confidence | as-written member | corrected member |
|---|---|---|---|---|---|---|
| main.py:91 | the sum of the readings is divided by `len(data) - failed`, though `data` holds only successful readings | readings 10 and 20 with one failed attempt give 30.0; one reading with one failed attempt raises `ZeroDivisionError` | divide by `len(data)`, the number of readings | not executed; high | `Average.AsWrittenOvershoots` | `Average.MeanTempWithinBounds` |
| main.py:32-33 | a missing `"temp"` is appended as `None`; `float(None)` at line 89 then raises `TypeError` before anything is printed | payload `{"main": {}}` for the only city | a missing reading counts as a failed city | not executed; medium | `Dispatch.MissingTempCrashesReport` | `Dispatch.StrictUpdatesNeverRaise` |
