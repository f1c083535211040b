/**
 * Enrichment of extracted items: places and hotels get coordinates, an
 * address and a distance from a geocoder, products get their price source.
 * An item is a dictionary the source updates in place and returns; here it
 * goes in as a value and comes out updated, together with the exception the
 * update raised, if any. Updates made before an exception are kept, as they
 * are in the source's dictionary.
 */
module Enrich {
  import opened Values
  import opened Text

  /** What the forward search answered. */
  datatype Search =
    | SearchNotOk                     // a status code other than 200
    | SearchEmpty                     // `r.json() or []` is empty
    | SearchHit(lat: Value, lon: Value) // the "lat" and "lon" of the first result (None when absent)
    | SearchRaised                    // the request, its JSON, or reading the first result raised

  /** What the reverse lookup answered. */
  datatype Reverse =
    | ReverseNotOk                           // a status code other than 200
    | ReverseAddress(address: map<string, Value>) // the "address" object ({} when absent or the body is empty)
    | ReverseRaised                          // the request, its JSON, or reading the address raised

  /**
   * The geocoding service and the distance computation: the search by
   * name, the reverse lookup by coordinates, and the rounded great-circle
   * distance in kilometres from an origin to a point.
   */
  datatype Geocoder = Geocoder(
    search: string -> Search,
    reverse: (real, real) -> Reverse,
    distanceKm: (real, real, real, real) -> real)

  /** A Python `float | None` origin coordinate is truthy when present and not zero. */
  predicate Given(o: Option<real>)
  {
    o.Some? && o.value != 0.0
  }

  /** `(item.get(key) or "")` as a string, or the AttributeError its `.strip()` or `.lower()` raises. */
  function TextField(item: Item, key: string): (r: Result<string>)
    ensures r.Err? <==> Truthy(Get(item, key)) && !Get(item, key).Str?
    ensures r.Err? ==> r.error == AttributeError
    ensures r.Ok? && Truthy(Get(item, key)) ==> r.value == Get(item, key).s
    ensures r.Ok? && !Truthy(Get(item, key)) ==> r.value == ""
  {
    var v := Or(Get(item, key), Str(""));
    if v.Str? then Ok(v.s) else Err(AttributeError)
  }

  /** The dispatch key of `enrich_item`: the lower-cased type, "" when absent or empty. */
  function ItemKind(item: Item): (r: Result<string>)
    ensures r.Err? <==> Truthy(Get(item, "type")) && !Get(item, "type").Str?
    ensures r.Err? ==> r.error == AttributeError
    ensures !Truthy(Get(item, "type")) ==> r == Ok("")
    ensures Get(item, "type").Str? ==> r == Ok(Lower(Get(item, "type").s))
  {
    match TextField(item, "type")
    case Ok(t) => Ok(Lower(t))
    case Err(e) => Err(e)
  }

  /** `float(item.get("confidence", 0.5))`. */
  function ConfidenceOf(item: Item): Result<real>
  {
    ToFloat(GetOr(item, "confidence", Float(0.5)))
  }

  /** The name `enrich_place` searches for: `(item.get("item_name") or "").strip()`. */
  function PlaceQuery(item: Item): (r: Result<string>)
    ensures r.Err? <==> TextField(item, "item_name").Err?
    ensures r.Ok? ==> r.value == Strip(TextField(item, "item_name").value)
  {
    match TextField(item, "item_name")
    case Ok(raw) => Ok(Strip(raw))
    case Err(e) => Err(e)
  }

  /** The search for a name: the first hit's coordinates, when both convert to floats. */
  function Lookup(query: string, geo: Geocoder): (r: Option<(real, real)>)
    ensures var hit := geo.search(query);
      r.Some? <==> hit.SearchHit? && ToFloat(hit.lat).Ok? && ToFloat(hit.lon).Ok?
    ensures var hit := geo.search(query);
      r.Some? ==> r.value == (ToFloat(hit.lat).value, ToFloat(hit.lon).value)
  {
    match geo.search(query)
    case SearchHit(la, lo) =>
      (match (ToFloat(la), ToFloat(lo))
       case (Ok(lat), Ok(lng)) => Some((lat, lng))
       case _ => None)
    case _ => None
  }

  /** The coordinates a place gets: a name that is not blank, and a search hit with convertible values. */
  function Coordinates(item: Item, geo: Geocoder): Option<(real, real)>
  {
    match PlaceQuery(item)
    case Err(_) => None
    case Ok(query) => if query == [] then None else Lookup(query, geo)
  }

  /** The fields `enrich_place` may add or change. */
  const PlaceFields: set<string> := {"lat", "lng", "city", "state", "country", "distance_km", "processing_status", "confidence"}

  /** The fields `enrich_place` may overwrite; the others it only adds when absent. */
  const PlaceOverwrites: set<string> := {"lat", "lng", "distance_km", "confidence"}

  /** `setdefault` of city, state and country from an address: present keys stay, even when None. */
  ghost predicate AddressRules(item: Item, address: map<string, Value>, out: Item)
  {
    && "city" in out && "state" in out && "country" in out
    && ("city" !in item && Truthy(Get(address, "city")) ==> out["city"] == Get(address, "city"))
    && ("city" !in item && !Truthy(Get(address, "city")) && Truthy(Get(address, "town")) ==> out["city"] == Get(address, "town"))
    && ("city" !in item && !Truthy(Get(address, "city")) && !Truthy(Get(address, "town")) ==> out["city"] == Get(address, "village"))
    && ("state" !in item ==> out["state"] == Get(address, "state"))
    && ("country" !in item ==> out["country"] == Get(address, "country"))
  }

  /** `out` has every key of `d`, and any other key it has is one of `fields`. */
  ghost predicate AddsOnly(d: Item, out: Item, fields: set<string>)
  {
    && (forall k :: k in d ==> k in out)
    && (forall k :: k in out ==> k in d || k in fields)
  }

  /** `key` is present in `out` exactly when in `item`, with the same value. */
  ghost predicate Kept(item: Item, out: Item, key: string)
  {
    (key in out <==> key in item) && Get(out, key) == Get(item, key)
  }

  /** What `enrich_place` promises about the item it returns and the exception it lets out. */
  ghost predicate PlaceRules(item: Item, originLat: Option<real>, originLng: Option<real>, geo: Geocoder, out: Item, raised: Option<Error>)
  {
    var c := Coordinates(item, geo);
    // a name that is not a string raises before the lookup; every later failure is swallowed
    && (raised.Some? <==> PlaceQuery(item).Err?)
    && (raised.Some? ==> raised.value == AttributeError)
    // without coordinates nothing changes
    && (c.None? ==> out == item)
    && (c.Some? ==> PlaceUpdate(item, c.value.0, c.value.1, geo.reverse(c.value.0, c.value.1), originLat, originLng, geo, out))
  }

  /**
   * The address step of `enrich_place`: when the reverse lookup answered
   * with an address, city, state and country are filled where missing.
   */
  method FillAddress(d: Item, rv: Reverse) returns (r: Item)
    ensures AddsOnly(d, r, {"city", "state", "country"})
    ensures forall k :: k in d ==> r[k] == d[k]
    ensures rv.ReverseAddress? ==> AddressRules(d, rv.address, r)
    ensures !rv.ReverseAddress? ==> r == d
    ensures Kept(d, r, "distance_km") && Kept(d, r, "processing_status") && Kept(d, r, "confidence")
  {
    r := d;
    if rv.ReverseAddress? {
      var address := rv.address;
      r := SetDefault(r, "city", Or(Or(Get(address, "city"), Get(address, "town")), Get(address, "village")));
      r := SetDefault(r, "state", Get(address, "state"));
      r := SetDefault(r, "country", Get(address, "country"));
    }
  }

  /** The distance step of `enrich_place`: written only when both origin coordinates are truthy. */
  method SetDistance(d: Item, originLat: Option<real>, originLng: Option<real>, lat: real, lng: real, geo: Geocoder)
    returns (r: Item)
    ensures AddsOnly(d, r, {"distance_km"})
    ensures forall k :: k in d && k != "distance_km" ==> r[k] == d[k]
    ensures Given(originLat) && Given(originLng) ==>
      Get(r, "distance_km") == Float(geo.distanceKm(originLat.value, originLng.value, lat, lng))
    ensures !(Given(originLat) && Given(originLng)) ==> r == d
    ensures Kept(d, r, "city") && Kept(d, r, "state") && Kept(d, r, "country")
    ensures Kept(d, r, "processing_status") && Kept(d, r, "confidence")
  {
    r := d;
    if Given(originLat) && Given(originLng) {
      r := r["distance_km" := Float(geo.distanceKm(originLat.value, originLng.value, lat, lng))];
    }
  }

  /**
   * The last two steps of `enrich_place`: the status is kept or set to
   * "done", then the confidence is raised to at least 0.7 unless its
   * conversion raises, which ends the update.
   */
  method FinishPlace(d: Item, ghost prior: Item) returns (r: Item)
    requires Kept(prior, d, "confidence")
    ensures AddsOnly(d, r, {"processing_status", "confidence"})
    ensures forall k :: k in d && k != "processing_status" && k != "confidence" ==> r[k] == d[k]
    ensures Kept(d, r, "city") && Kept(d, r, "state") && Kept(d, r, "country") && Kept(d, r, "distance_km")
    ensures "processing_status" in r
    ensures "processing_status" in d ==> r["processing_status"] == d["processing_status"]
    ensures "processing_status" !in d ==> r["processing_status"] == Str("done")
    ensures ConfidenceOf(prior).Ok? ==>
      && Get(r, "confidence").Float?
      && Get(r, "confidence").f >= 0.7 && Get(r, "confidence").f >= ConfidenceOf(prior).value
      && (Get(r, "confidence").f == 0.7 || Get(r, "confidence").f == ConfidenceOf(prior).value)
    ensures ConfidenceOf(prior).Err? ==> Kept(prior, r, "confidence")
  {
    r := d["processing_status" := GetOr(d, "processing_status", Str("done"))];
    var confidence := ToFloat(GetOr(r, "confidence", Float(0.5)));
    assert confidence == ConfidenceOf(prior);
    if confidence.Err? {
      return;
    }
    r := r["confidence" := Float(Max(confidence.value, 0.7))];
  }

  /** What the steps after an answered reverse lookup do to an item `d` that has its coordinates. */
  ghost predicate AnsweredUpdate(d: Item, rv: Reverse, originLat: Option<real>, originLng: Option<real>,
                                 lat: real, lng: real, geo: Geocoder, out: Item)
  {
    && AddsOnly(d, out, {"city", "state", "country", "distance_km", "processing_status", "confidence"})
    && (forall k :: k in d && k != "distance_km" && k != "confidence" ==> out[k] == d[k])
    && (rv.ReverseAddress? ==> AddressRules(d, rv.address, out))
    && (!rv.ReverseAddress? ==> Kept(d, out, "city") && Kept(d, out, "state") && Kept(d, out, "country"))
    && (Given(originLat) && Given(originLng) ==>
          Get(out, "distance_km") == Float(geo.distanceKm(originLat.value, originLng.value, lat, lng)))
    && (!(Given(originLat) && Given(originLng)) ==> Kept(d, out, "distance_km"))
    && "processing_status" in out
    && ("processing_status" !in d ==> out["processing_status"] == Str("done"))
    && (ConfidenceOf(d).Ok? ==>
          && Get(out, "confidence").Float?
          && Get(out, "confidence").f >= 0.7 && Get(out, "confidence").f >= ConfidenceOf(d).value
          && (Get(out, "confidence").f == 0.7 || Get(out, "confidence").f == ConfidenceOf(d).value))
    && (ConfidenceOf(d).Err? ==> Kept(d, out, "confidence"))
  }

  /** The steps of `enrich_place` once the reverse lookup returned without raising. */
  method SettleAnswered(d: Item, rv: Reverse, originLat: Option<real>, originLng: Option<real>,
                        lat: real, lng: real, geo: Geocoder) returns (out: Item)
    requires !rv.ReverseRaised?
    ensures AnsweredUpdate(d, rv, originLat, originLng, lat, lng, geo, out)
  {
    out := FillAddress(d, rv);
    out := SetDistance(out, originLat, originLng, lat, lng, geo);
    out := FinishPlace(out, d);
  }

  /** The item with the coordinates of the search hit written into it. */
  function Located(item: Item, lat: real, lng: real): Item
  {
    item["lat" := Float(lat)]["lng" := Float(lng)]
  }

  /**
   * What a place becomes once the search gave the coordinates (`lat`, `lng`)
   * and the reverse lookup answered `rv`: the coordinates are written, and
   * unless the reverse lookup raised, the remaining steps follow.
   */
  ghost predicate PlaceUpdate(item: Item, lat: real, lng: real, rv: Reverse,
                              originLat: Option<real>, originLng: Option<real>, geo: Geocoder, out: Item)
  {
    if rv.ReverseRaised? then out == Located(item, lat, lng)
    else AnsweredUpdate(Located(item, lat, lng), rv, originLat, originLng, lat, lng, geo, out)
  }

  /** The part of `enrich_place` after a successful search. */
  method SettlePlace(item: Item, lat: real, lng: real, rv: Reverse,
                     originLat: Option<real>, originLng: Option<real>, geo: Geocoder) returns (out: Item)
    ensures PlaceUpdate(item, lat, lng, rv, originLat, originLng, geo, out)
  {
    out := item["lat" := Float(lat)];
    out := out["lng" := Float(lng)];
    if rv.ReverseRaised? {
      return;
    }
    out := SettleAnswered(out, rv, originLat, originLng, lat, lng, geo);
  }

  /**
   * `enrich_place`: geocodes the stripped name; on a hit sets the
   * coordinates, fills city, state and country from the reverse lookup,
   * the distance from the origin, the status and the confidence.
   */
  method EnrichPlace(item: Item, originLat: Option<real>, originLng: Option<real>, geo: Geocoder)
    returns (out: Item, raised: Option<Error>)
    ensures PlaceRules(item, originLat, originLng, geo, out, raised)
    ensures AddsOnly(item, out, PlaceFields)
    ensures forall k :: k in item && k !in PlaceOverwrites ==> out[k] == item[k]
  {
    var query := PlaceQuery(item);
    if query.Err? {
      return item, Some(query.error);
    }
    if query.value == [] {
      return item, None;
    }
    var coordinates := Lookup(query.value, geo);
    if coordinates.None? {
      return item, None;
    }
    var (lat, lng) := coordinates.value;
    out := SettlePlace(item, lat, lng, geo.reverse(lat, lng), originLat, originLng, geo);
    PlaceFrame(item, lat, lng, geo.reverse(lat, lng), originLat, originLng, geo, out);
    raised := None;
  }

  /**
   * Once the search gave coordinates, `enrich_place` only adds fields, and
   * of the fields the item had only the overwritable ones change.
   */
  lemma PlaceFrame(item: Item, lat: real, lng: real, rv: Reverse,
                   originLat: Option<real>, originLng: Option<real>, geo: Geocoder, out: Item)
    requires PlaceUpdate(item, lat, lng, rv, originLat, originLng, geo, out)
    ensures AddsOnly(item, out, PlaceFields)
    ensures forall k :: k in item && k !in PlaceOverwrites ==> out[k] == item[k]
  {
    var located := Located(item, lat, lng);
    assert AddsOnly(item, located, {"lat", "lng"});
    assert forall k :: k in item && k != "lat" && k != "lng" ==> located[k] == item[k];
  }

  /**
   * The confidence never goes down, and once the reverse lookup answered it
   * is at least 0.7.
   */
  lemma PlaceConfidence(item: Item, lat: real, lng: real, rv: Reverse,
                        originLat: Option<real>, originLng: Option<real>, geo: Geocoder, out: Item)
    requires PlaceUpdate(item, lat, lng, rv, originLat, originLng, geo, out)
    ensures ConfidenceOf(item).Ok? && "confidence" in out ==>
      ToFloat(out["confidence"]).Ok? && ToFloat(out["confidence"]).value >= ConfidenceOf(item).value
    ensures !rv.ReverseRaised? && ConfidenceOf(item).Ok? ==>
      out["confidence"].Float? && out["confidence"].f >= 0.7
    ensures rv.ReverseRaised? ==> Kept(item, out, "confidence")
  {
    var located := Located(item, lat, lng);
    assert Kept(item, located, "confidence");
    assert ConfidenceOf(located) == ConfidenceOf(item);
  }

  /**
   * A distance is written only once the reverse lookup answered and both
   * origin coordinates are truthy; an existing status is kept, and once the
   * reverse lookup answered there is one.
   */
  lemma PlaceDistanceAndStatus(item: Item, lat: real, lng: real, rv: Reverse,
                               originLat: Option<real>, originLng: Option<real>, geo: Geocoder, out: Item)
    requires PlaceUpdate(item, lat, lng, rv, originLat, originLng, geo, out)
    ensures !(!rv.ReverseRaised? && Given(originLat) && Given(originLng)) ==> Kept(item, out, "distance_km")
    ensures !rv.ReverseRaised? && Given(originLat) && Given(originLng) ==>
      Get(out, "distance_km") == Float(geo.distanceKm(originLat.value, originLng.value, lat, lng))
    ensures "processing_status" in item ==> Kept(item, out, "processing_status")
    ensures !rv.ReverseRaised? ==> "processing_status" in out
    ensures !rv.ReverseRaised? && "processing_status" !in item ==> out["processing_status"] == Str("done")
  {
    var located := Located(item, lat, lng);
    assert Kept(item, located, "distance_km") && Kept(item, located, "processing_status");
  }

  /** The fields `enrich_product` may add or change. */
  const ProductFields: set<string> := {"price_source", "processing_status", "confidence"}

  /** What `enrich_product` promises. */
  ghost predicate ProductRules(item: Item, out: Item, raised: Option<Error>)
  {
    && (Truthy(Get(item, "price")) ==> out == item && raised.None?)
    && (!Truthy(Get(item, "price")) ==>
          && AddsOnly(item, out, ProductFields)
          && (forall k :: k in item && k !in {"price_source", "confidence"} ==> out[k] == item[k])
          && Get(out, "price_source") == Str("web-scrape")
          && "processing_status" in out
          && ("processing_status" !in item ==> out["processing_status"] == Str("review"))
          && (ConfidenceOf(item).Ok? ==> raised.None? && Get(out, "confidence") == Float(ConfidenceOf(item).value))
          && (ConfidenceOf(item).Err? ==>
                raised == Some(ConfidenceOf(item).error) && Kept(item, out, "confidence")))
  }

  /** `enrich_product`: an item without a price is marked for a web price lookup. */
  method EnrichProduct(item: Item) returns (out: Item, raised: Option<Error>)
    ensures ProductRules(item, out, raised)
  {
    out := item;
    raised := None;
    if !Truthy(Get(item, "price")) {
      out := out["price_source" := Str("web-scrape")];
      out := SetDefault(out, "processing_status", Str("review"));
      var confidence := ToFloat(GetOr(out, "confidence", Float(0.5)));
      if confidence.Err? {
        raised := Some(confidence.error);
        return;
      }
      out := out["confidence" := Float(confidence.value)];
    }
  }

  /** What `enrich_item` promises: dispatch on the lower-cased type, and only enrichment fields touched. */
  ghost predicate EnrichRules(item: Item, originLat: Option<real>, originLng: Option<real>, geo: Geocoder,
                              out: Item, raised: Option<Error>)
  {
    && (ItemKind(item).Err? ==> out == item && raised == Some(AttributeError))
    && (ItemKind(item) == Ok("place") || ItemKind(item) == Ok("hotel") ==>
          PlaceRules(item, originLat, originLng, geo, out, raised))
    && (ItemKind(item) == Ok("product") ==> ProductRules(item, out, raised))
    && (ItemKind(item).Ok? && ItemKind(item).value !in {"place", "hotel", "product"} ==>
          out == item && raised.None?)
    && AddsOnly(item, out, PlaceFields + ProductFields)
    && (forall k :: k in item && k !in PlaceOverwrites + ProductFields ==> out[k] == item[k])
  }

  /** `enrich_item`: places and hotels are geocoded, products priced, anything else returned as it is. */
  method EnrichItem(item: Item, originLat: Option<real>, originLng: Option<real>, geo: Geocoder)
    returns (out: Item, raised: Option<Error>)
    ensures EnrichRules(item, originLat, originLng, geo, out, raised)
  {
    var kind := ItemKind(item);
    if kind.Err? {
      return item, Some(kind.error);
    }
    if kind.value == "place" || kind.value == "hotel" {
      out, raised := EnrichPlace(item, originLat, originLng, geo);
    } else if kind.value == "product" {
      out, raised := EnrichProduct(item);
    } else {
      out, raised := item, None;
    }
  }
}
