/** The transit and geocoding client once a response body is in hand: picking the
    coordinates out of a geocoder answer and turning the transit API's JSON arrays into
    `Station` and `BusDeparture` records. The HTTP requests themselves are not modelled;
    each operation takes the body already parsed as JSON (`None` when it is not JSON). */
module Api {
  import opened Prelude
  import opened Rust
  import opened JsonValue
  import opened Structs

  /** The coordinate used when the geocoder's first result has no string for it. */
  const NO_COORDINATE := "0"

  /** True when `v` is an object whose field `key` holds a string. */
  predicate HasText(v: Json, key: string) {
    v.Obj? && key in v.fields && v.fields[key].Str?
  }

  /** The `lat` or `lon` of a geocoder result: `as_str` of the field, or "0". */
  function CoordinateOf(result: Json, key: string): (c: string)
    ensures HasText(result, key) ==> c == result.fields[key].s
    ensures !HasText(result, key) ==> c == NO_COORDINATE
  {
    var v := match Get(result, key) case Some(v) => v case None => Null;
    match AsStr(v) case Some(n) => n case None => NO_COORDINATE
  }

  /** `fetch_geocode` after the request: the coordinates of the first result, with "0"
      for a coordinate that is missing or not a string (also when there is no result);
      an error when the body is not JSON. */
  function FetchGeocode(body: Option<Json>): (r: Result<(string, string)>)
    ensures r.Err? <==> body.None?
    ensures r.Err? ==> r.fault == BadBody
    ensures r.Ok? ==> r.value == (CoordinateOf(Index(body.value, 0), "lat"), CoordinateOf(Index(body.value, 0), "lon"))
  {
    match body
    case None => Err(BadBody)
    case Some(json) =>
      var first := Index(json, 0);
      Ok((CoordinateOf(first, "lat"), CoordinateOf(first, "lon")))
  }

  lemma GeocodeWithoutResults(items: seq<Json>)
    requires items == [] || !items[0].Obj?
    ensures FetchGeocode(Some(Arr(items))) == Ok((NO_COORDINATE, NO_COORDINATE))
  {
  }

  /** `name.splitn(2, ",").next()`: the text before the first comma, or all of it. */
  function BeforeComma(name: string): (r: string)
    ensures |r| <= |name| && name[..|r|] == r
    ensures ',' !in r
    ensures r == name || name[|r|] == ','
    decreases |name|
  {
    if name == [] || name[0] == ',' then [] else [name[0]] + BeforeComma(name[1..])
  }

  /** The length of the leading run of objects in `items`. */
  function ObjectRun(items: seq<Json>): (n: nat)
    ensures n <= |items|
    ensures forall k :: 0 <= k < n ==> items[k].Obj?
    ensures n < |items| ==> !items[n].Obj?
    decreases |items|
  {
    if items == [] || !items[0].Obj? then 0 else 1 + ObjectRun(items[1..])
  }

  /** A leading run of objects that stops at `i` has length `i`. */
  lemma {:induction false} RunLength(items: seq<Json>, i: nat)
    requires i <= |items|
    requires forall k :: 0 <= k < i ==> items[k].Obj?
    requires i < |items| ==> !items[i].Obj?
    ensures ObjectRun(items) == i
    decreases i
  {
    if i > 0 {
      RunLength(items[1..], i - 1);
    }
  }

  /** The elements `while json[i].is_object()` collects: the leading objects of an array,
      nothing for any other value. */
  function LeadingObjects(json: Json): seq<Json> {
    if json.Arr? then json.items[..ObjectRun(json.items)] else []
  }

  /** The collecting loop: it keeps `json[0]`, `json[1]`, ... while they are objects. */
  method CollectObjects(json: Json) returns (values: seq<Json>)
    ensures values == LeadingObjects(json)
    ensures forall k :: 0 <= k < |values| ==> values[k].Obj? && values[k] == Index(json, k)
    ensures !Index(json, |values|).Obj?
  {
    values := [];
    var i := 0;
    while Index(json, i).Obj?
      invariant i == |values|
      invariant json.Arr? ==> i <= |json.items| && values == json.items[..i]
      invariant !json.Arr? ==> i == 0
      invariant forall k :: 0 <= k < i ==> values[k].Obj? && values[k] == Index(json, k)
      decreases if json.Arr? then |json.items| - i else 0
    {
      values := values + [Index(json, i)];
      i := i + 1;
    }
    if json.Arr? {
      RunLength(json.items, i);
    }
  }

  /** The fields `get_nearby_stations` unwraps are all there with the right kind. */
  predicate IsStationRecord(s: Json) {
    && HasText(s, "name")
    && HasText(s, "id")
    && s.Obj? && "location" in s.fields
    && Get(s.fields["location"], "latitude").Some?
    && Get(s.fields["location"], "longitude").Some?
    && "distance" in s.fields && AsI64(s.fields["distance"]).Some?
  }

  /** One station of a nearby-stations answer; an `Err` where an `unwrap()` would panic. */
  function StationFrom(s: Json): (r: Result<Station>)
    ensures r.Ok? <==> IsStationRecord(s)
    ensures r.Err? ==> r.fault == Panicked
    ensures r.Ok? ==> r.value.id == s.fields["id"].s
    ensures r.Ok? ==> r.value.name == BeforeComma(s.fields["name"].s)
    ensures r.Ok? ==> r.value.distance == s.fields["distance"].n.i
  {
    if !IsStationRecord(s) then Err(Panicked)
    else
      var location := s.fields["location"];
      Ok(Station(
        id := s.fields["id"].s,
        name := BeforeComma(s.fields["name"].s),
        location := Location(Get(location, "latitude").value, Get(location, "longitude").value),
        distance := s.fields["distance"].n.i))
  }

  /** `get_nearby_stations` after the request: one station per leading object of the
      answer, in order; a panic when the body is not JSON or a record lacks a field. */
  method GetNearbyStations(body: Option<Json>) returns (r: Result<seq<Station>>)
    ensures r.Err? ==> r.fault == Panicked
    ensures body.None? ==> r.Err?
    ensures body.Some? ==>
      (r.Ok? <==> forall k :: 0 <= k < |LeadingObjects(body.value)| ==> StationFrom(LeadingObjects(body.value)[k]).Ok?)
    ensures r.Ok? ==> body.Some? && |r.value| == |LeadingObjects(body.value)|
    ensures r.Ok? ==> forall k :: 0 <= k < |r.value| ==> StationFrom(LeadingObjects(body.value)[k]) == Ok(r.value[k])
  {
    if body.None? {
      return Err(Panicked);
    }
    var values := CollectObjects(body.value);
    var stations: seq<Station> := [];
    for i := 0 to |values|
      invariant |stations| == i
      invariant forall k :: 0 <= k < i ==> StationFrom(values[k]) == Ok(stations[k])
    {
      var station := StationFrom(values[i]);
      if station.Err? {
        return Err(Panicked);
      }
      stations := stations + [station.value];
    }
    r := Ok(stations);
  }

  /** The fields `get_departures` unwraps are all there with the right kind. */
  predicate IsDepartureRecord(d: Json) {
    && d.Obj?
    && "line" in d.fields && HasText(d.fields["line"], "name")
    && HasText(d, "plannedWhen")
    && HasText(d, "direction")
    && "destination" in d.fields
    && HasText(d.fields["destination"], "id")
    && HasText(d.fields["destination"], "name")
    && "location" in d.fields["destination"].fields
    && IsPosition(d.fields["destination"].fields["location"])
    && ("currentTripPosition" in d.fields ==> IsPosition(d.fields["currentTripPosition"]))
  }

  /** An object whose `latitude` and `longitude` are numbers. */
  predicate IsPosition(v: Json) {
    v.Obj? && "latitude" in v.fields && v.fields["latitude"].Num?
    && "longitude" in v.fields && v.fields["longitude"].Num?
  }

  function PositionOf(v: Json): Location
    requires IsPosition(v)
  {
    Location(v.fields["latitude"], v.fields["longitude"])
  }

  /** One departure of a departures answer, stamped with the queried stop id. */
  function DepartureFrom(d: Json, stopId: string): (r: Result<BusDeparture>)
    ensures r.Ok? <==> IsDepartureRecord(d)
    ensures r.Err? ==> r.fault == Panicked
    ensures r.Ok? ==> r.value.stopId == stopId && r.value.destination.distance == -1
    ensures r.Ok? ==> r.value.name == d.fields["line"].fields["name"].s
    ensures r.Ok? ==> r.value.direction == d.fields["direction"].s
    ensures r.Ok? ==> r.value.planned == d.fields["plannedWhen"].s
    ensures r.Ok? ==> (r.value.delay.Some? <==> "delay" in d.fields && AsI64(d.fields["delay"]).Some?)
    ensures r.Ok? && r.value.delay.Some? ==> r.value.delay.value == d.fields["delay"].n.i
    ensures r.Ok? ==> (r.value.currPosition.Some? <==> "currentTripPosition" in d.fields)
  {
    if !IsDepartureRecord(d) then Err(Panicked)
    else
      var destination := d.fields["destination"];
      var delay := match Get(d, "delay") case Some(v) => AsI64(v) case None => None;
      var position := match Get(d, "currentTripPosition") case Some(v) => Some(PositionOf(v)) case None => None;
      Ok(BusDeparture(
        stopId := stopId,
        planned := d.fields["plannedWhen"].s,
        delay := delay,
        direction := d.fields["direction"].s,
        name := d.fields["line"].fields["name"].s,
        destination := Station(
          destination.fields["id"].s,
          destination.fields["name"].s,
          PositionOf(destination.fields["location"]),
          -1),
        currPosition := position))
  }

  /** `get_departures` after the request: one departure per leading object of the
      answer, in order; a panic when the body is not JSON or a record lacks a field. */
  method GetDepartures(body: Option<Json>, stopId: string) returns (r: Result<seq<BusDeparture>>)
    ensures r.Err? ==> r.fault == Panicked
    ensures body.None? ==> r.Err?
    ensures body.Some? ==>
      (r.Ok? <==> forall k :: 0 <= k < |LeadingObjects(body.value)| ==> DepartureFrom(LeadingObjects(body.value)[k], stopId).Ok?)
    ensures r.Ok? ==> body.Some? && |r.value| == |LeadingObjects(body.value)|
    ensures r.Ok? ==> forall k :: 0 <= k < |r.value| ==> DepartureFrom(LeadingObjects(body.value)[k], stopId) == Ok(r.value[k])
    ensures r.Ok? ==> forall k :: 0 <= k < |r.value| ==> r.value[k].stopId == stopId && r.value[k].destination.distance == -1
  {
    if body.None? {
      return Err(Panicked);
    }
    var values := CollectObjects(body.value);
    var buses: seq<BusDeparture> := [];
    for i := 0 to |values|
      invariant |buses| == i
      invariant forall k :: 0 <= k < i ==> DepartureFrom(values[k], stopId) == Ok(buses[k])
    {
      var bus := DepartureFrom(values[i], stopId);
      if bus.Err? {
        return Err(Panicked);
      }
      buses := buses + [bus.value];
    }
    r := Ok(buses);
  }
}
