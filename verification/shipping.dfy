/**
 * Shipping quotes: a piecewise tariff on the delivery distance, a keyword
 * fallback when no distance is known, and the chain of distance sources
 * the quote handler tries.
 */
module Shipping {
  import opened Wrappers
  import opened Text

  /** The least integer not below `x`. */
  function Ceil(x: real): (n: int)
    ensures n as real >= x && (n - 1) as real < x
  {
    -((-x).Floor)
  }

  lemma {:induction false} CeilMonotone(x: real, y: real)
    requires x <= y
    ensures Ceil(x) <= Ceil(y)
  {
  }

  /** The tariff on a known distance in km. */
  function DistanceTariff(km: real): (cost: int)
    ensures km <= 5.0 ==> cost == 20000
    ensures 5.0 < km <= 10.0 ==> cost == 30000
    ensures 10.0 < km <= 20.0 ==> cost == 50000
    ensures 20.0 < km <= 30.0 ==> cost == 80000
    ensures km > 30.0 ==> cost == 100000 + 5000 * Ceil(km - 30.0)
  {
    if km <= 5.0 then 20000
    else if km <= 10.0 then 30000
    else if km <= 20.0 then 50000
    else if km <= 30.0 then 80000
    else 100000 + Ceil(km - 30.0) * 5000
  }

  /** The tariff never falls as the distance grows. */
  lemma {:induction false} TariffMonotone(a: real, b: real)
    requires a <= b
    ensures DistanceTariff(a) <= DistanceTariff(b)
  {
    if a > 30.0 {
      CeilMonotone(a - 30.0, b - 30.0);
    }
  }

  /** Every distance costs at least 20000; beyond 30 km, at least 105000. */
  lemma {:induction false} TariffBounds(km: real)
    ensures DistanceTariff(km) >= 20000
    ensures km > 30.0 ==> DistanceTariff(km) >= 105000
  {
    if km > 30.0 {
      assert Ceil(km - 30.0) >= 1;
    }
  }

  /** Place names that mark an address in Đà Nẵng. */
  const DaNangKeywords: seq<string> := [
    "đà nẵng", "da nang", "danang", "ngũ hành sơn", "hoà hải",
    "thanh khê", "hải châu", "liên chiểu", "sơn trà", "cẩm lệ"]

  predicate InDaNang(address: string) {
    exists k :: 0 <= k < |DaNangKeywords| && Contains(Lower(address), DaNangKeywords[k])
  }

  /** The range the fallback draws from: 20000..50000 in Đà Nẵng, else 50000..150000. */
  function FallbackRange(address: string): (range: (int, int))
    ensures range.0 <= range.1
    ensures InDaNang(address) ==> range == (20000, 50000)
    ensures !InDaNang(address) ==> range == (50000, 150000)
  {
    if InDaNang(address) then (20000, 50000) else (50000, 150000)
  }

  /** An empty address names no place, so it is quoted outside Đà Nẵng. */
  lemma {:induction false} EmptyAddressOutside()
    ensures FallbackRange("") == (50000, 150000)
  {
    forall k | 0 <= k < |DaNangKeywords| ensures !Contains(Lower(""), DaNangKeywords[k]) {
      assert |DaNangKeywords[k]| > 0;
    }
  }

  /** `calculateShippingFallback`: a random cost in the address's range. */
  method ShippingFallback(address: string) returns (cost: int)
    ensures FallbackRange(address).0 <= cost <= FallbackRange(address).1
  {
    var range := FallbackRange(address);
    cost :| range.0 <= cost <= range.1;
  }

  /** `calculateShippingCost`: the tariff, or the empty-address fallback when the distance is unknown. */
  method ShippingCost(km: Option<real>) returns (cost: int)
    ensures km.Some? ==> cost == DistanceTariff(km.value)
    ensures km.None? ==> 50000 <= cost <= 150000
  {
    if km.None? {
      EmptyAddressOutside();
      cost := ShippingFallback("");
    } else {
      cost := DistanceTariff(km.value);
    }
  }

  /** What a distance service returned for the address. */
  datatype Lookup = Failed | Found(km: real, minutes: int)

  datatype Quote =
    | MissingAddress
    | Quoted(cost: int, distance: Option<real>, duration: Option<int>, distanceBased: bool, deliveryAddress: string)

  /** The distance the handler settles on: Google's when a key is set and it answers, else OpenStreetMap's. */
  function ChosenLookup(googleKeySet: bool, google: Lookup, osm: Lookup): Lookup
  {
    if googleKeySet && google.Found? then google else osm
  }

  /**
   * The POST handler: an address that is empty after trimming is refused;
   * otherwise Google is asked when a key is set, OpenStreetMap while no
   * distance is known, and the fallback is used when neither answered.
   */
  method QuoteShipping(address: Option<string>, googleKeySet: bool, google: Lookup, osm: Lookup)
    returns (quote: Quote)
    ensures quote == MissingAddress <==> PhpFalsy(PhpTrim(address.GetOr("")))
    ensures quote.Quoted? ==>
      var chosen := ChosenLookup(googleKeySet, google, osm);
      quote.deliveryAddress == PhpTrim(address.GetOr("")) &&
      (quote.distanceBased <==> chosen.Found?) &&
      (quote.distanceBased ==> quote.distance == Some(chosen.km) && quote.duration == Some(chosen.minutes) &&
                               quote.cost == DistanceTariff(chosen.km)) &&
      (!quote.distanceBased ==> quote.distance.None? && quote.duration.None? &&
                                FallbackRange(quote.deliveryAddress).0 <= quote.cost <= FallbackRange(quote.deliveryAddress).1)
  {
    var delivery := PhpTrim(address.GetOr(""));
    if PhpFalsy(delivery) {
      return MissingAddress;
    }
    var distance: Option<real> := None;
    var duration: Option<int> := None;
    if googleKeySet && google.Found? {
      distance, duration := Some(google.km), Some(google.minutes);
    }
    if distance.None? && osm.Found? {
      distance, duration := Some(osm.km), Some(osm.minutes);
    }
    var cost: int;
    if distance.Some? {
      cost := ShippingCost(distance);
    } else {
      cost := ShippingFallback(delivery);
    }
    return Quoted(cost, distance, duration, distance.Some?, delivery);
  }
}
