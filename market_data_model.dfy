/**
 * `models/market_data.py`: the market-data record and the keyword-argument
 * rewriting its constructor does so that either historical spelling of the
 * two 24-hour change fields ends up under one name.
 */
module MarketDataModel {

  /**
   * One market-data record. Only the two lookup keys are modelled; every
   * other field (prices, volumes, supplies, decimals, optional names) is
   * the opaque `payload`.
   */
  datatype MarketData<P> = MarketData(coin: string, Tname: string, payload: P)

  const LegacyChange: string := "24hchange"
  const Change: string := "change_24h"
  const LegacyChangePct: string := "24hchange_pct"
  const ChangePct: string := "change_24h_pct"

  /** The four keys the rewriting can touch. */
  predicate IsAliasKey(key: string) {
    key == LegacyChange || key == Change || key == LegacyChangePct || key == ChangePct
  }

  /**
   * One `if legacy in kwargs: ... elif canonical in kwargs: ...` step: the
   * legacy spelling, when present, is removed and its value stored under the
   * canonical name, overwriting it; otherwise the map keeps its contents.
   */
  function ResolveAlias<V>(kwargs: map<string, V>, legacy: string, canonical: string): (r: map<string, V>)
    requires legacy != canonical
    ensures legacy !in r
    ensures canonical in r <==> legacy in kwargs || canonical in kwargs
    ensures legacy in kwargs ==> r[canonical] == kwargs[legacy]
    ensures legacy !in kwargs && canonical in kwargs ==> r[canonical] == kwargs[canonical]
    ensures forall key :: key != legacy && key != canonical ==> (key in r <==> key in kwargs)
    ensures forall key :: key in r && key != legacy && key != canonical ==> r[key] == kwargs[key]
  {
    if legacy in kwargs then (kwargs - {legacy})[canonical := kwargs[legacy]] else kwargs
  }

  /** What the constructor passes on to validation: both pairs resolved, the absolute change first. */
  function Normalized<V>(kwargs: map<string, V>): (r: map<string, V>)
    ensures LegacyChange !in r && LegacyChangePct !in r
    ensures Change in r <==> LegacyChange in kwargs || Change in kwargs
    ensures ChangePct in r <==> LegacyChangePct in kwargs || ChangePct in kwargs
    ensures forall key :: !IsAliasKey(key) ==> (key in r <==> key in kwargs)
    ensures forall key :: key in r && !IsAliasKey(key) ==> r[key] == kwargs[key]
  {
    ResolveAlias(ResolveAlias(kwargs, LegacyChange, Change), LegacyChangePct, ChangePct)
  }

  /**
   * The rewriting as `MarketData.__init__` performs it on its own `kwargs`
   * dictionary: `pop` of the spelling found, then assignment under the
   * canonical name. In the `elif` branch the canonical key is popped and put
   * back, which leaves the contents as they were.
   */
  method NormalizeAliases<V>(kwargs: map<string, V>) returns (result: map<string, V>)
    ensures result == Normalized(kwargs)
    ensures LegacyChange !in result && LegacyChangePct !in result
    ensures forall key :: !IsAliasKey(key) ==> (key in result <==> key in kwargs)
    ensures forall key :: key in result && !IsAliasKey(key) ==> result[key] == kwargs[key]
  {
    result := kwargs;
    if LegacyChange in result {
      var value := result[LegacyChange];
      result := result - {LegacyChange};
      result := result[Change := value];
    } else if Change in result {
      var value := result[Change];
      result := result - {Change};
      result := result[Change := value];
    }
    if LegacyChangePct in result {
      var value := result[LegacyChangePct];
      result := result - {LegacyChangePct};
      result := result[ChangePct := value];
    } else if ChangePct in result {
      var value := result[ChangePct];
      result := result - {ChangePct};
      result := result[ChangePct := value];
    }
  }

  /** When neither spelling of a pair is present, no key of that pair is created. */
  lemma AbsentPairStaysAbsent<V>(kwargs: map<string, V>)
    ensures LegacyChange !in kwargs && Change !in kwargs ==> Change !in Normalized(kwargs)
    ensures LegacyChangePct !in kwargs && ChangePct !in kwargs ==> ChangePct !in Normalized(kwargs)
  {
  }

  /**
   * The two pairs do not affect each other: resolving the percentage pair
   * first gives the same map.
   */
  lemma PairsCommute<V>(kwargs: map<string, V>)
    ensures Normalized(kwargs)
         == ResolveAlias(ResolveAlias(kwargs, LegacyChangePct, ChangePct), LegacyChange, Change)
  {
  }

  /** Normalising an already normalised map changes nothing. */
  lemma NormalizedIdempotent<V>(kwargs: map<string, V>)
    ensures Normalized(Normalized(kwargs)) == Normalized(kwargs)
  {
  }
}
