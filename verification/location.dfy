/**
 * The location helpers: the cached last position, the 0.045-degree
 * movement test, the failure shape of the position request and the
 * place-name fallback of reverse geocoding.
 */
module Location {
  import opened Wrappers
  import opened Storage
  import JsNumber

  const LocationKey: string := "cached_location"
  const MoveThreshold: real := 0.045

  datatype Coordinates = Coordinates(lat: real, lon: real)

  /** `getCachedLocation`: absent without storage, without an entry, or when the entry is not JSON. */
  function GetCachedLocation(storage: LocalStorage): (r: Option<Coordinates>)
    reads storage
    ensures r.Some? <==> (storage.GetItem(LocationKey).Some? && storage.GetItem(LocationKey).value.Parses?
                          && storage.GetItem(LocationKey).value.value.JLocation?)
    ensures r.Some? ==> storage.GetItem(LocationKey) == Some(Parses(JLocation(r.value.lat, r.value.lon)))
  {
    match storage.GetItem(LocationKey)
    case Some(Parses(JLocation(lat, lon))) => Some(Coordinates(lat, lon))
    case _ => None
  }

  /** `cacheLocation`: written when storage exists; every other key is untouched. */
  method CacheLocation(storage: LocalStorage, lat: real, lon: real)
    modifies storage
    ensures storage.available ==> GetCachedLocation(storage) == Some(Coordinates(lat, lon))
    ensures !storage.available ==> storage.entries == old(storage.entries)
    ensures forall k :: k != LocationKey ==> storage.GetItem(k) == old(storage.GetItem(k))
  {
    storage.SetItem(LocationKey, JLocation(lat, lon));
  }

  function Abs(x: real): real {
    if x < 0.0 then -x else x
  }

  /** `movedSignificantly`: more than the threshold on either axis. */
  function MovedSignificantly(a: Coordinates, b: Coordinates): (moved: bool)
    ensures moved <==> Abs(a.lat - b.lat) > MoveThreshold || Abs(a.lon - b.lon) > MoveThreshold
  {
    Abs(a.lat - b.lat) > MoveThreshold || Abs(a.lon - b.lon) > MoveThreshold
  }

  lemma MovedSignificantlySymmetric(a: Coordinates, b: Coordinates)
    ensures MovedSignificantly(a, b) == MovedSignificantly(b, a)
    ensures !MovedSignificantly(a, a)
  {
  }

  /** The comparison is strict: a difference of exactly the threshold on both axes is no move. */
  lemma ThresholdIsNotAMove(a: Coordinates)
    ensures !MovedSignificantly(a, Coordinates(a.lat + MoveThreshold, a.lon - MoveThreshold))
    ensures MovedSignificantly(a, Coordinates(a.lat + MoveThreshold + 0.001, a.lon))
  {
  }

  // ----- position -----

  /** How a rejected promise is told apart: `err instanceof GeolocationPositionError`. */
  datatype Failure = GeolocationPositionError | PlainError

  /** The device's answer to `getCurrentPosition`. */
  datatype DeviceReply = Fix(position: Coordinates) | DeviceError

  datatype PositionResult = Located(position: Coordinates) | Rejected(error: Failure)

  /** `getPosition`: without geolocation support the rejection is a plain `Error`. */
  function GetPosition(geolocationSupported: bool, reply: DeviceReply): (r: PositionResult)
    ensures !geolocationSupported ==> r == Rejected(PlainError)
    ensures geolocationSupported ==> (r.Rejected? <==> reply.DeviceError?)
    ensures r.Rejected? && geolocationSupported ==> r.error == GeolocationPositionError
    ensures r.Located? ==> reply == Fix(r.position)
  {
    if !geolocationSupported then Rejected(PlainError)
    else match reply
      case Fix(p) => Located(p)
      case DeviceError => Rejected(GeolocationPositionError)
  }

  // ----- reverse geocoding -----

  /** The `address` object of a geocoding answer: each field may be missing. */
  datatype Address = Address(city: Option<string>, town: Option<string>, village: Option<string>,
                             county: Option<string>, state: Option<string>)

  /** The outcome of the geocoding request: failed (network, status or parse) or an answer. */
  datatype GeocodeReply = GeocodeFailed | Answer(address: Option<Address>)

  /** A field counts when present and non-empty (`||` skips ""). */
  predicate Named(field: Option<string>) {
    field.Some? && field.value != ""
  }

  /** "lat, lon" with two decimals each. */
  function CoordinatesName(lat: real, lon: real): (name: string)
    ensures exists a, b :: name == a + ", " + b && JsNumber.Renders(a, lat, 2) && JsNumber.Renders(b, lon, 2)
  {
    var a := JsNumber.ToFixed(lat, 2);
    var b := JsNumber.ToFixed(lon, 2);
    JsNumber.ToFixedRenders(lat, 2);
    JsNumber.ToFixedRenders(lon, 2);
    a + ", " + b
  }

  function FirstNamed(fields: seq<Option<string>>, otherwise: string): (name: string)
    ensures (exists i :: 0 <= i < |fields| && Named(fields[i])) ==>
      exists i :: 0 <= i < |fields| && Named(fields[i]) && name == fields[i].value
        && forall j :: 0 <= j < i ==> !Named(fields[j])
    ensures (forall i :: 0 <= i < |fields| ==> !Named(fields[i])) ==> name == otherwise
  {
    if |fields| == 0 then otherwise
    else if Named(fields[0]) then fields[0].value
    else
      var rest := FirstNamed(fields[1..], otherwise);
      assert forall i :: 1 <= i < |fields| ==> fields[i] == fields[1..][i - 1];
      rest
  }

  /** The name fields of an answer, in the order `reverseGeocode` tries them. */
  function NameFields(reply: GeocodeReply): seq<Option<string>> {
    match reply
    case Answer(Some(a)) => [a.city, a.town, a.village, a.county, a.state]
    case _ => []
  }

  /**
   * `reverseGeocode` never fails: the first non-empty of city, town,
   * village, county and state, or else the coordinates.
   */
  function ReverseGeocode(lat: real, lon: real, reply: GeocodeReply): (name: string)
    ensures var fields := NameFields(reply);
      (exists i :: 0 <= i < |fields| && Named(fields[i])) ==>
        exists i :: 0 <= i < |fields| && Named(fields[i]) && name == fields[i].value
          && forall j :: 0 <= j < i ==> !Named(fields[j])
    ensures var fields := NameFields(reply);
      (forall i :: 0 <= i < |fields| ==> !Named(fields[i])) ==> name == CoordinatesName(lat, lon)
  {
    FirstNamed(NameFields(reply), CoordinatesName(lat, lon))
  }
}
