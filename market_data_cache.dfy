/**
 * `api/market_data.py`: the `HyqFetch` reference cache. One fetched list of
 * market-data records is held together with three views derived from it:
 * the list of coins, a map keyed by `Tname` and a map keyed by `coin`.
 * `build_data` computes all views from a fetch result and then replaces the
 * four fields together; a failed fetch leaves them as they were.
 */
module MarketDataCache {
  import opened Wrappers
  import opened MarketDataModel
  import Exceptions

  /** The two lookup keys of a record. */
  datatype KeyField = ByTname | ByCoin

  function KeyOf<P>(record: MarketData<P>, key: KeyField): string {
    match key
    case ByTname => record.Tname
    case ByCoin => record.coin
  }

  /** The keys that occur in a record list. */
  ghost function KeysOf<P>(records: seq<MarketData<P>>, key: KeyField): set<string> {
    set i | 0 <= i < |records| :: KeyOf(records[i], key)
  }

  /** `[spot_meta.coin for spot_meta in records]`: every coin, in source order, duplicates kept. */
  function Coins<P>(records: seq<MarketData<P>>): (coins: seq<string>)
    ensures |coins| == |records|
    ensures forall i :: 0 <= i < |records| ==> coins[i] == records[i].coin
  {
    if records == [] then [] else [records[0].coin] + Coins(records[1..])
  }

  /**
   * `{KeyOf(data, key): data for data in records}`: records are inserted in
   * source order, so a later record overwrites an earlier one with the same
   * key. The keys are exactly the keys of the list and every entry is a
   * record of the list stored under its own key.
   */
  function IndexBy<P(==)>(records: seq<MarketData<P>>, key: KeyField): (index: map<string, MarketData<P>>)
    ensures index.Keys == KeysOf(records, key)
    ensures forall k :: k in index ==> KeyOf(index[k], key) == k && index[k] in records
    decreases |records|
  {
    if records == [] then map[]
    else
      var last := records[|records| - 1];
      var earlier := records[..|records| - 1];
      assert forall i :: 0 <= i < |earlier| ==> earlier[i] == records[i];
      assert KeysOf(records, key) == KeysOf(earlier, key) + {KeyOf(last, key)};
      IndexBy(earlier, key)[KeyOf(last, key) := last]
  }

  /** Record `i` is the last one in the list with its key. */
  ghost predicate IsLastWithKey<P>(records: seq<MarketData<P>>, key: KeyField, i: int) {
    && 0 <= i < |records|
    && forall j :: i < j < |records| ==> KeyOf(records[j], key) != KeyOf(records[i], key)
  }

  /** Last wins: the map holds, for each key, the last record with that key. */
  lemma {:induction false} IndexByLastWins<P>(records: seq<MarketData<P>>, key: KeyField, i: int)
    requires IsLastWithKey(records, key, i)
    ensures KeyOf(records[i], key) in IndexBy(records, key)
    ensures IndexBy(records, key)[KeyOf(records[i], key)] == records[i]
  {
    if i < |records| - 1 {
      var earlier := records[..|records| - 1];
      assert IsLastWithKey(earlier, key, i);
      IndexByLastWins(earlier, key, i);
    }
  }

  /** Each entry of either map is the last record of the list with its key. */
  lemma {:induction false} IndexEntryIsLast<P>(records: seq<MarketData<P>>, key: KeyField, k: string)
    requires k in IndexBy(records, key)
    ensures exists i :: IsLastWithKey(records, key, i) && KeyOf(records[i], key) == k
                        && IndexBy(records, key)[k] == records[i]
  {
    var n := |records| - 1;
    if KeyOf(records[n], key) == k {
      assert IsLastWithKey(records, key, n);
    } else {
      var earlier := records[..n];
      assert IndexBy(records, key) == IndexBy(earlier, key)[KeyOf(records[n], key) := records[n]];
      IndexEntryIsLast(earlier, key, k);
      var i :| IsLastWithKey(earlier, key, i) && KeyOf(earlier[i], key) == k
               && IndexBy(earlier, key)[k] == earlier[i];
      assert forall j :: 0 <= j < n ==> earlier[j] == records[j];
      assert IsLastWithKey(records, key, i);
    }
  }

  /** Every coin of the coin list resolves, in the coin-keyed map, to a record with that coin. */
  lemma CoinListResolves<P>(records: seq<MarketData<P>>, coin: string)
    ensures coin in Coins(records) <==> coin in IndexBy(records, ByCoin)
    ensures coin in Coins(records) ==> IndexBy(records, ByCoin)[coin].coin == coin
  {
  }

  /** The errors the cache raises. */
  datatype CacheError =
    | EmptyMarketData(message: string)
      // `Exception("Market data is empty")`
    | MapNotBuilt
      // the map is still `None`, so `.get` raises `AttributeError`
    | NoSuchTicker(exception: Exceptions.OrderException)
      // `NoSuchTickerException(f"{Tname} is not in market data")`
    | NotInMarketData(message: string)
      // `Exception(f"{coin} is not in market data")`
    | FetchFailed(message: string)
      // `Exception("Failed to fetch market data")`, re-raised by `build_data`

  /** What a call of the fetch helper produces: the parsed records, or its failure. */
  datatype FetchOutcome<P> = Fetched(records: seq<MarketData<P>>) | FetchFailure

  const MarketDataEmptyMessage: string := "Market data is empty"
  const FetchFailedMessage: string := "Failed to fetch market data"
  const NotInMarketDataSuffix: string := " is not in market data"

  class HyqFetch<P(==)> {
    var marketDatas: seq<MarketData<P>>
    var coinList: seq<string>
    /** Keyed by `Tname`, despite its name. */
    var coinByTname: Option<map<string, MarketData<P>>>
    /** Keyed by `coin`, despite its name. */
    var tnameByCoin: Option<map<string, MarketData<P>>>

    /**
     * The four fields come from one record list: the maps are both `None`
     * (nothing built yet, and then the lists are empty) or both the indexes
     * of the stored list, and the coin list is always that list's coins.
     */
    ghost predicate Valid()
      reads this
    {
      && (coinByTname.None? <==> tnameByCoin.None?)
      && (coinByTname.None? ==> marketDatas == [])
      && coinList == Coins(marketDatas)
      && (coinByTname.Some? ==> coinByTname.value == IndexBy(marketDatas, ByTname))
      && (tnameByCoin.Some? ==> tnameByCoin.value == IndexBy(marketDatas, ByCoin))
    }

    /** A fresh cache: empty lists, both maps `None`. */
    constructor ()
      ensures Valid()
      ensures marketDatas == [] && coinList == []
      ensures coinByTname == None && tnameByCoin == None
    {
      marketDatas := [];
      coinList := [];
      coinByTname := None;
      tnameByCoin := None;
    }

    /** The `coin_list` property: never raises (it only logs when the list is empty). */
    method CoinList() returns (coins: seq<string>)
      requires Valid()
      ensures coins == coinList
      ensures coins == Coins(marketDatas)
    {
      coins := coinList;
    }

    /** The `coin_by_Tname` property: never raises; `None` until the first build. */
    method CoinByTname() returns (index: Option<map<string, MarketData<P>>>)
      requires Valid()
      ensures index == coinByTname
      ensures index.Some? ==> index.value == IndexBy(marketDatas, ByTname)
      ensures index.None? ==> marketDatas == []
    {
      index := coinByTname;
    }

    /** The `Tname_by_coin` property: never raises; `None` until the first build. */
    method TnameByCoin() returns (index: Option<map<string, MarketData<P>>>)
      requires Valid()
      ensures index == tnameByCoin
      ensures index.Some? ==> index.value == IndexBy(marketDatas, ByCoin)
      ensures index.None? ==> marketDatas == []
    {
      index := tnameByCoin;
    }

    /** The `market_datas` property: raises when the stored list is empty, even after a build. */
    method MarketDatas() returns (r: Result<seq<MarketData<P>>, CacheError>)
      ensures r.Success? <==> marketDatas != []
      ensures r.Success? ==> r.value == marketDatas
      ensures r.Failure? ==> r.error == EmptyMarketData(MarketDataEmptyMessage)
    {
      if marketDatas == [] {
        return Failure(EmptyMarketData(MarketDataEmptyMessage));
      }
      r := Success(marketDatas);
    }

    /**
     * `get_coin_list`: the coins recomputed from `market_datas`, which is
     * the stored coin list whenever the record list is not empty.
     */
    method GetCoinList() returns (r: Result<seq<string>, CacheError>)
      requires Valid()
      ensures r.Success? <==> marketDatas != []
      ensures r.Success? ==> r.value == coinList
      ensures r.Failure? ==> r.error == EmptyMarketData(MarketDataEmptyMessage)
    {
      var records := MarketDatas();
      if records.Failure? {
        return Failure(records.error);
      }
      r := Success(Coins(records.value));
    }

    /**
     * `build_data`, with the outcome of the fetch as a parameter. On success
     * all four fields are replaced by views of the fetched list; on failure
     * the error is re-raised and nothing changes.
     */
    method BuildData(fetch: FetchOutcome<P>) returns (r: Outcome<CacheError>)
      requires Valid()
      modifies this
      ensures Valid()
      ensures fetch.FetchFailure? ==> r == Fail(FetchFailed(FetchFailedMessage))
      ensures fetch.FetchFailure? ==>
        && marketDatas == old(marketDatas) && coinList == old(coinList)
        && coinByTname == old(coinByTname) && tnameByCoin == old(tnameByCoin)
      ensures fetch.Fetched? ==>
        && r == Pass
        && marketDatas == fetch.records
        && coinList == Coins(fetch.records)
        && coinByTname == Some(IndexBy(fetch.records, ByTname))
        && tnameByCoin == Some(IndexBy(fetch.records, ByCoin))
    {
      if fetch.FetchFailure? {
        return Fail(FetchFailed(FetchFailedMessage));
      }
      var newMarketDatas := fetch.records;
      var newCoinByTname := IndexBy(newMarketDatas, ByTname);
      var newTnameByCoin := IndexBy(newMarketDatas, ByCoin);
      var newCoinList := Coins(newMarketDatas);
      marketDatas := newMarketDatas;
      coinByTname := Some(newCoinByTname);
      tnameByCoin := Some(newTnameByCoin);
      coinList := newCoinList;
      r := Pass;
    }

    /**
     * `filter_by_Tname`: the record stored under `tname`, or
     * `NoSuchTickerException` with message `"{tname} is not in market data"`
     * (code 1004, status 400). Before the first build the map is `None` and
     * the lookup itself fails.
     */
    method FilterByTname(tname: string) returns (r: Result<MarketData<P>, CacheError>)
      requires Valid()
      ensures coinByTname.None? ==> r == Failure(MapNotBuilt)
      ensures coinByTname.Some? && tname in coinByTname.value ==> r == Success(coinByTname.value[tname])
      ensures r.Success? ==> r.value.Tname == tname && r.value in marketDatas
      ensures coinByTname.Some? && tname !in coinByTname.value ==>
        && r.Failure? && r.error.NoSuchTicker?
        && r.error.exception.message == tname + NotInMarketDataSuffix
        && r.error.exception.code == 1004 && r.error.exception.statusCode == 400
        && r.error.exception.apiResponse == Exceptions.EmptyDict
        && r.error.exception.detail.apiResponse == Exceptions.PyNone
    {
      if coinByTname.None? {
        return Failure(MapNotBuilt);
      }
      var index := coinByTname.value;
      if tname !in index {
        var message := tname + NotInMarketDataSuffix;
        return Failure(NoSuchTicker(Exceptions.Raise(Exceptions.NoSuchTicker, message, Exceptions.PyNone, None)));
      }
      r := Success(index[tname]);
    }

    /**
     * `filter_by_coin`: the record stored under `coin`, or a plain
     * `Exception` with message `"{coin} is not in market data"`. Before the
     * first build the map is `None` and the lookup itself fails.
     */
    method FilterByCoin(coin: string) returns (r: Result<MarketData<P>, CacheError>)
      requires Valid()
      ensures tnameByCoin.None? ==> r == Failure(MapNotBuilt)
      ensures tnameByCoin.Some? && coin in tnameByCoin.value ==> r == Success(tnameByCoin.value[coin])
      ensures r.Success? ==> r.value.coin == coin && r.value in marketDatas
      ensures tnameByCoin.Some? && coin !in tnameByCoin.value ==>
        r == Failure(NotInMarketData(coin + NotInMarketDataSuffix))
      ensures tnameByCoin.Some? && coin in coinList ==> r.Success? && r.value.coin == coin
    {
      if tnameByCoin.None? {
        return Failure(MapNotBuilt);
      }
      var index := tnameByCoin.value;
      CoinListResolves(marketDatas, coin);
      if coin !in index {
        return Failure(NotInMarketData(coin + NotInMarketDataSuffix));
      }
      r := Success(index[coin]);
    }
  }

  /**
   * A cache built from three records, then refreshed with a failing fetch:
   * the coin list keeps source order, lookups by either key find the right
   * record, an unknown coin is reported, and the failed refresh keeps
   * the earlier data.
   */
  method ThreeRecordRefresh<P(==)>(btc: P, eth: P, sol: P)
    returns (coins: Result<seq<string>, CacheError>, byTname: Result<MarketData<P>, CacheError>,
             unknown: Result<MarketData<P>, CacheError>)
    ensures coins == Success(["BTC", "ETH", "SOL"])
    ensures byTname == Success(MarketData("ETH", "ETHUSD", eth))
    ensures unknown == Failure(NotInMarketData("XRP" + NotInMarketDataSuffix))
  {
    var cache := new HyqFetch<P>();
    var records := [MarketData("BTC", "BTCUSD", btc), MarketData("ETH", "ETHUSD", eth),
                    MarketData("SOL", "SOLUSD", sol)];
    var coinsOfRecords := Coins(records);
    assert coinsOfRecords[0] == "BTC" && coinsOfRecords[1] == "ETH" && coinsOfRecords[2] == "SOL";
    assert coinsOfRecords == ["BTC", "ETH", "SOL"];
    assert "XRP" !in KeysOf(records, ByCoin);
    var built := cache.BuildData(Fetched(records));
    var refreshed := cache.BuildData(FetchFailure);
    coins := cache.GetCoinList();
    IndexByLastWins(records, ByTname, 1);
    byTname := cache.FilterByTname("ETHUSD");
    unknown := cache.FilterByCoin("XRP");
  }
}
