# hypurrquant_fastapi_core — a Dafny model of the market-data cache and its helpers

This project models the sequential core of the `hypurrquant_fastapi_core`
support library of a trading backend.

- **`HyqFetch`** (`api/market_data.py`) is an in-memory reference cache. It
  holds one fetched list of market-data records and three views derived
  from it: the list of coins, a map keyed by `Tname` (field
  `_coin_by_Tname`) and a map keyed by `coin` (field `_Tname_by_coin`).
  `build_data` recomputes all four from a fetch and replaces them together.
  A failed fetch leaves them unchanged.
- **`MarketData.__init__`** (`models/market_data.py`) rewrites its keyword
  arguments so that either historical spelling of the two 24-hour change
  fields (`24hchange` / `change_24h`, `24hchange_pct` / `change_24h_pct`)
  ends up under the `change_24h…` name.
- **`singleton.py`** memoises construction per class, with a decorator or
  with a metaclass.
- **`exception.py`** and **`api/exception.py`** define the order-exception
  hierarchy: each class fixes a numeric code and an HTTP status.
  `get_exception_by_code` picks a class from a code, with a default.

Files:

- `wrappers.dfy`: `Option`, `Result`, `Outcome`.
- `exceptions.dfy`: module `Exceptions` (`exception.py`).
- `api_exceptions.dfy`: module `ApiExceptions` (`api/exception.py`).
- `market_data_model.dfy`: module `MarketDataModel` (`models/market_data.py`).
- `market_data_cache.dfy`: module `MarketDataCache` (`api/market_data.py`).
- `singleton.dfy`: module `Singleton` (`singleton.py`).

Modelling choices:

- A record is `MarketData(coin, Tname, payload)`. The payload is a type
  parameter and stands for all the other (floating-point) fields.
- The fetch is an input, `Fetched(records) | FetchFailure`. A deserialisation
  error is one kind of `FetchFailure`, because it happens inside the same
  `try`.
- Python exceptions are `Failure` / `Fail` values of a `CacheError` datatype.
- `HyqFetch` is a class with the four fields. Its `Valid()` invariant says
  that the coin list and both maps are views of the stored record list, or
  that both maps are still `None` and the list is empty.
- A pydantic record is always truthy. So `if not data` in the filters means
  "the key is absent".
- Before the first build the maps are `None`. Then `.get` raises
  `AttributeError`, which the model calls `MapNotBuilt`.
- Python truthiness of `api_response` is modelled by a small `PyValue`
  datatype with a `Truthy` predicate. Its cases stand in for every value
  `api_response` can hold, including an `APIResponse` object or a float.
  What the constructor does depends only on three classes of value: a
  truthy value, `{}`, and a falsy value other than `{}`. `PyValue` has
  members of all three.
- `FilterByTname` builds its `NoSuchTickerException` with
  `api_response=None`, as the code does. So the stored `api_response` is
  `{}` and the detail payload holds `None`.
- Calling a class in `singleton.py` allocates an `Instance` object that
  records its class and its arguments. This makes "the very same object"
  (reference equality) and "constructed now" (`fresh`) expressible.

Where the code and the design description differ, the model follows the
code:

- The `coin_list` and map getters never raise; they only log.
  `market_datas` and `get_coin_list` raise when the stored list is empty,
  and they do so even after a successful build from an empty list.
- Duplicate keys are last-wins in both maps, while the record list and the
  coin list keep every duplicate. No duplicates are rejected.
- `build_data` re-raises a fetch failure. So the refresher loop stops on
  the first failure instead of surviving it.

## Model

| member | source | states |
|---|---|---|
| Exceptions.NewBaseOrderException | lib/python3.10/site-packages/hypurrquant_fastapi_core/exception.py:7-20 | message, code and status are stored as given; `api_response` is stored as given when truthy and as `{}` otherwise, so the stored value is always truthy or `{}`; the detail payload keeps the raw argument |
| Exceptions.StoredResponseDiffersFromDetail | lib/python3.10/site-packages/hypurrquant_fastapi_core/exception.py:14-20 | the stored `api_response` differs from the detail's exactly when the argument was falsy and not already `{}` |
| Exceptions.DefaultStatus | lib/python3.10/site-packages/hypurrquant_fastapi_core/exception.py:7-129 | without a `status_code` argument a subclass carries 400, except `ApiLimitExceededException`, which carries 503 |
| Exceptions.Code | lib/python3.10/site-packages/hypurrquant_fastapi_core/exception.py:36-359 | the fixed code of each of the 21 subclasses (1000–1005, 3000–3011, 3100, 7000, 9999); every code has four digits, and 9999 belongs to `UnhandledErrorException` alone |
| Exceptions.ForwardsStatus | lib/python3.10/site-packages/hypurrquant_fastapi_core/exception.py:77-307 | the subclasses that declare a `status_code` parameter and forward it: `TooLowSlippage`, `NoSuchTicker`, `TooSmallOrderAmount`, `InsufficientSpotBalance`, `InsufficientPerpBalance` and `InsufficientBalance`; `ApiLimitExceededException` is not among them |
| Exceptions.KindOfCode | lib/python3.10/site-packages/hypurrquant_fastapi_core/exception.py:23-359 | for every code, the owning subclass is unique: `KindOfCode(c) == Some(k)` exactly when subclass `k` uses code `c`, and `None` when no subclass uses it |
| Exceptions.CodesAreDistinct | lib/python3.10/site-packages/hypurrquant_fastapi_core/exception.py:36-359 | no two `BaseOrderException` subclasses of `exception.py` share a code |
| Exceptions.Raise | lib/python3.10/site-packages/hypurrquant_fastapi_core/exception.py:23-359 | constructing subclass `k` stores its fixed code and the message; a `status_code` is accepted only by the subclasses that declare it and is forwarded; otherwise the status is the default status; the code identifies the subclass |
| Exceptions.RaiseDataError | lib/python3.10/site-packages/hypurrquant_fastapi_core/exception.py:323-344 | `MarketDataException` and `CandleDataException` carry 9000 and 9001 only as positional arguments; no order exception uses either code |
| ApiExceptions.ClassCode | lib/python3.10/site-packages/hypurrquant_fastapi_core/api/exception.py:19-49 | the local classes carry 3000, 3003 and 3004, and an imported class its own code; every such code is also owned by a class of `exception.py` |
| ApiExceptions.ClassStatus | lib/python3.10/site-packages/hypurrquant_fastapi_core/api/exception.py:19-49 | the status is 503 exactly for the two API-limit classes, the local one (line 19) and the one of `exception.py`, and 400 for every other class |
| ApiExceptions.CoreCounterpart | lib/python3.10/site-packages/hypurrquant_fastapi_core/api/exception.py:7-49 | each local class has a class of `exception.py` with the same code and status: 3000/503, 3003/400, 3004/400 |
| ApiExceptions.ExceptionMapping | lib/python3.10/site-packages/hypurrquant_fastapi_core/api/exception.py:64-69 | the table has exactly the keys 3000, 3003, 3004 and 9999, and each key maps to a class that carries that very code |
| ApiExceptions.ExceptionClassForCode | lib/python3.10/site-packages/hypurrquant_fastapi_core/api/exception.py:52-73 | a table code selects a class whose own code is that code; any other code selects `UnhandledErrorException`; the default is selected exactly for 9999 and for codes outside the table |
| ApiExceptions.SelectionTable | lib/python3.10/site-packages/hypurrquant_fastapi_core/api/exception.py:64-69 | the four table entries: 3000, 3003, 3004 and 9999 |
| ApiExceptions.RaiseApi | lib/python3.10/site-packages/hypurrquant_fastapi_core/api/exception.py:7-49 | constructing a selectable class gives an exception with that class's code, status and message |
| MarketDataModel.ResolveAlias | lib/python3.10/site-packages/hypurrquant_fastapi_core/models/market_data.py:35-38 | after one alias step the legacy key is gone; the canonical key is present iff either spelling was; its value is the legacy one when that was present and is unchanged otherwise; every other key keeps its presence and value |
| MarketDataModel.Normalized | lib/python3.10/site-packages/hypurrquant_fastapi_core/models/market_data.py:35-43 | after both pairs are resolved no legacy key remains; each canonical key is present iff either of its spellings was; every non-alias key keeps its presence and value |
| MarketDataModel.NormalizeAliases | lib/python3.10/site-packages/hypurrquant_fastapi_core/models/market_data.py:35-43 | the pop-and-assign rewriting equals resolving both pairs; no `24hchange` or `24hchange_pct` key remains; every non-alias key keeps its presence and value |
| MarketDataModel.AbsentPairStaysAbsent | lib/python3.10/site-packages/hypurrquant_fastapi_core/models/market_data.py:35-43 | if neither spelling of a pair is present, its canonical key is not created |
| MarketDataModel.PairsCommute | lib/python3.10/site-packages/hypurrquant_fastapi_core/models/market_data.py:35-43 | the two pairs do not affect each other: resolving them in the other order gives the same map |
| MarketDataModel.NormalizedIdempotent | lib/python3.10/site-packages/hypurrquant_fastapi_core/models/market_data.py:35-43 | normalising twice gives the same map as normalising once |
| MarketDataCache.Coins | lib/python3.10/site-packages/hypurrquant_fastapi_core/api/market_data.py:76 | the coin list has one entry per record, the record's coin, in source order (duplicates kept) |
| MarketDataCache.IndexBy | lib/python3.10/site-packages/hypurrquant_fastapi_core/api/market_data.py:74-75 | a dict comprehension over the records has exactly the keys of the list, and every entry is a record of the list whose key is the entry's key |
| MarketDataCache.IndexByLastWins | lib/python3.10/site-packages/hypurrquant_fastapi_core/api/market_data.py:74-75 | last wins: the last record with a given key is the one stored under that key |
| MarketDataCache.IndexEntryIsLast | lib/python3.10/site-packages/hypurrquant_fastapi_core/api/market_data.py:74-75 | every map entry is the last record of the list with that key |
| MarketDataCache.CoinListResolves | lib/python3.10/site-packages/hypurrquant_fastapi_core/api/market_data.py:75-76 | a coin is in the coin list iff it is a key of the coin-keyed map, and then its entry has that coin |
| MarketDataCache.HyqFetch.constructor | lib/python3.10/site-packages/hypurrquant_fastapi_core/api/market_data.py:24-28 | a fresh cache has an empty record list and coin list, and both maps are `None` |
| MarketDataCache.HyqFetch.CoinList | lib/python3.10/site-packages/hypurrquant_fastapi_core/api/market_data.py:31-36 | `coin_list` never raises and is always the coins of the stored record list |
| MarketDataCache.HyqFetch.CoinByTname | lib/python3.10/site-packages/hypurrquant_fastapi_core/api/market_data.py:38-43 | `coin_by_Tname` never raises; it is the Tname index of the stored list, or `None` (and then the list is empty) |
| MarketDataCache.HyqFetch.TnameByCoin | lib/python3.10/site-packages/hypurrquant_fastapi_core/api/market_data.py:45-50 | `Tname_by_coin` never raises; it is the coin index of the stored list, or `None` (and then the list is empty) |
| MarketDataCache.HyqFetch.MarketDatas | lib/python3.10/site-packages/hypurrquant_fastapi_core/api/market_data.py:52-58 | `market_datas` raises "Market data is empty" exactly when the stored list is empty, and otherwise returns it |
| MarketDataCache.HyqFetch.GetCoinList | lib/python3.10/site-packages/hypurrquant_fastapi_core/api/market_data.py:60-61 | `get_coin_list` raises exactly when the record list is empty, and otherwise equals the stored coin list |
| MarketDataCache.HyqFetch.BuildData | lib/python3.10/site-packages/hypurrquant_fastapi_core/api/market_data.py:71-84 | on success all four fields are views of the same fetched list; on failure "Failed to fetch market data" is re-raised and no field changes; the invariant is kept |
| MarketDataCache.HyqFetch.FilterByTname | lib/python3.10/site-packages/hypurrquant_fastapi_core/api/market_data.py:86-93 | returns the entry for `Tname`, a record of the list with that `Tname`; an absent key raises `NoSuchTickerException` ("{Tname} is not in market data", code 1004, status 400) built with `api_response=None`, so it stores `{}` and its detail holds `None`; before any build the lookup fails |
| MarketDataCache.HyqFetch.FilterByCoin | lib/python3.10/site-packages/hypurrquant_fastapi_core/api/market_data.py:95-101 | returns the entry for `coin`, a record of the list with that coin; an absent key raises a plain exception ("{coin} is not in market data"); after a build every coin of the coin list is found |
| MarketDataCache.ThreeRecordRefresh | lib/python3.10/site-packages/hypurrquant_fastapi_core/api/market_data.py:71-101 | after building from BTC, ETH and SOL and then a failing refresh, the coin list is `["BTC","ETH","SOL"]`, `ETHUSD` finds the ETH record, and `XRP` is reported missing |
| Singleton.DistinctClassesDistinctInstances | lib/python3.10/site-packages/hypurrquant_fastapi_core/singleton.py:13-18 | in a dictionary where each instance sits under its own class, distinct classes hold distinct objects |
| Singleton.SingletonDecorator.constructor | lib/python3.10/site-packages/hypurrquant_fastapi_core/singleton.py:21-25 | each application of the decorator starts with its own empty dictionary |
| Singleton.SingletonDecorator.GetInstance | lib/python3.10/site-packages/hypurrquant_fastapi_core/singleton.py:27-30 | the first call constructs a fresh instance from its arguments and stores it; later calls return the same object, ignore their arguments and change nothing; only the decorated class is ever a key |
| Singleton.SingletonMeta.constructor | lib/python3.10/site-packages/hypurrquant_fastapi_core/singleton.py:13 | the shared `_instances` dictionary starts empty |
| Singleton.SingletonMeta.Call | lib/python3.10/site-packages/hypurrquant_fastapi_core/singleton.py:15-18 | the first call for a class constructs and stores a fresh instance; later calls return the same object; a call only adds the key `cls`, and no entry is replaced or removed |
| Singleton.DecoratorUse | lib/python3.10/site-packages/hypurrquant_fastapi_core/singleton.py:21-32 | two calls through one decoration give the same object, made from the first arguments; a second decoration makes an object of its own |
| Singleton.MetaclassUse | lib/python3.10/site-packages/hypurrquant_fastapi_core/singleton.py:13-18 | under the shared dictionary each class is constructed once, and distinct classes get distinct objects |

## Left out

- The `threading.RLock` in `HyqFetch` and all async machinery. The model is sequential, so the four-field swap in `BuildData` is atomic anyway.
- The `periodic_task` loop (an unbounded async loop with `asyncio.sleep`). The model has a single build step, and `BuildData` re-raises a failure as the code does.
- Network I/O: `_fetcg_market_data`, `send_request` and the HTTP client. Their outcome is the `FetchOutcome` parameter of `BuildData`.
- Logging: every `logger.error` call.
- Pydantic validation, the floating-point fields of `MarketData`, and what `super().__init__(**kwargs)` does with the normalised map. The `except KeyError` handler in the constructor is also left out, because no step of the alias rewriting can raise `KeyError`.
- Aliasing through returned references. In the code, the getters `coin_list`, `coin_by_Tname`, `Tname_by_coin` and `market_datas` hand back the cache's own list and dict objects, and `filter_by_Tname` / `filter_by_coin` hand back the record objects stored in the cache. A caller that mutates one of them changes the cache's state, and the four views may then no longer agree. The model returns values (`seq`, `map`, datatype records). The consistency it proves, `HyqFetch.Valid()`, therefore assumes that callers never mutate what the getters return.
- The insertion order of Python dictionaries. Popping and re-inserting `change_24h` moves the key to the end, but maps have no order.
- `NormalizeAliases`: works on a copy of the map, not in place. Python's `**kwargs` dictionary is a fresh copy local to the constructor, so callers see no difference.
- What the classes' own `__init__` does when `singleton.py` constructs them, including an exception it may raise: construction is modelled as allocating an `Instance` that records the class and its arguments.
- `Raise`: passing `status_code` to a subclass that does not declare that parameter raises `TypeError` in Python. The model excludes that call with a precondition rather than modelling the `TypeError` path.
- Instantiation in `get_exception_by_code`: only the class selection is modelled. The call `exception_class()` passes no message, while every selectable constructor requires one, so as written it raises `TypeError`.
- The content of `message` strings beyond equality.
- The FastAPI `HTTPException` base class: an order exception is modelled only by the fields it stores.
