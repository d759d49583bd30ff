/** The reverse-geocoding route: it checks the coordinates it is given,
    spaces its calls to the geocoding service at least 1.1 seconds apart,
    and turns the service's address record into one display line and a list
    of typed address components. The service call and the clock are
    parameters. */
module ReverseGeocode {
  import opened Common

  // ---------------------------------------------------------------------
  // Request validation

  /** A JavaScript number. */
  datatype JsNumber = Finite(value: real) | NaN | Infinite(positive: bool)

  /** A field of the request body: a number or any other JSON value. */
  datatype JsValue = Number(n: JsNumber) | NotNumber

  /** The request body: unparsable, or an object with the two coordinate fields. */
  datatype RequestBody = Malformed | Coordinates(lat: JsValue, lng: JsValue)

  const WrongTypes := "Invalid coordinates. lat and lng must be numbers."
  const NotANumber := "Invalid coordinates. lat and lng cannot be NaN."
  const OutOfRange := "Coordinates out of valid range. Lat: -90 to 90, Lng: -180 to 180."

  /** Latitude within [-90, 90] and longitude within [-180, 180], bounds included. */
  predicate InRange(lat: real, lng: real) {
    -90.0 <= lat <= 90.0 && -180.0 <= lng <= 180.0
  }

  /** The three checks in order: both numbers, neither NaN, both within range (an infinity is out
      of range). None means the coordinates are accepted. */
  function CheckCoordinates(lat: JsValue, lng: JsValue): (error: Option<string>)
    ensures error.None? <==> (lat.Number? && lat.n.Finite? && lng.Number? && lng.n.Finite? && InRange(lat.n.value, lng.n.value))
    ensures (lat.NotNumber? || lng.NotNumber?) ==> error == Some(WrongTypes)
    ensures lat.Number? && lng.Number? && (lat.n.NaN? || lng.n.NaN?) ==> error == Some(NotANumber)
  {
    if lat.NotNumber? || lng.NotNumber? then Some(WrongTypes)
    else if lat.n.NaN? || lng.n.NaN? then Some(NotANumber)
    else if !lat.n.Finite? || !lng.n.Finite? || !InRange(lat.n.value, lng.n.value) then Some(OutOfRange)
    else None
  }

  /** Finite coordinates are accepted exactly within the closed ranges, bounds included; an
      infinity in either place is refused as out of range. */
  lemma BoundsInclusive(lat: real, lng: real, negative: bool)
    ensures CheckCoordinates(Number(Finite(lat)), Number(Finite(lng))).None? <==>
      -90.0 <= lat <= 90.0 && -180.0 <= lng <= 180.0
    ensures CheckCoordinates(Number(Finite(lat)), Number(Infinite(negative))) == Some(OutOfRange)
    ensures CheckCoordinates(Number(Infinite(negative)), Number(Finite(lng))) == Some(OutOfRange)
  {
  }

  // ---------------------------------------------------------------------
  // Address formatting

  /** The service's address record: the fields present, with their text. */
  type Address = map<string, string>

  /** `address[key]`, when present. */
  function Field(address: Address, key: string): Option<string> {
    if key in address then Some(address[key]) else None
  }

  /** The field is present and non-empty. */
  predicate Has(address: Address, key: string) {
    Truthy(Field(address, key))
  }

  /** The parts of the display line: the street (after the house number when there is one), the
      first of city, town and village, the state, the country, each only when present. */
  function AddressParts(address: Address): seq<string> {
    StreetPart(address) + PlacePart(address) + OptionalPart(address, "state") + OptionalPart(address, "country")
  }

  /** `road || street`, or "" when neither is there. */
  function Street(address: Address): string {
    OrElse(Field(address, "road"), OrElse(Field(address, "street"), ""))
  }

  function StreetPart(address: Address): seq<string> {
    if Street(address) == "" then []
    else if Has(address, "house_number") then [address["house_number"] + " " + Street(address)]
    else [Street(address)]
  }

  function PlacePart(address: Address): seq<string> {
    if Has(address, "city") then [address["city"]]
    else if Has(address, "town") then [address["town"]]
    else if Has(address, "village") then [address["village"]]
    else []
  }

  function OptionalPart(address: Address, key: string): seq<string> {
    if Has(address, key) then [address[key]] else []
  }

  /** The display line the record gives, with "Address not found" for a record with none of the fields. */
  function AddressLine(address: Address): string {
    var parts := AddressParts(address);
    if parts == [] then "Address not found" else Join(parts, ", ")
  }

  function NonEmptyRule(): string -> bool {
    (s: string) => s != ""
  }

  /** `buildAddressString`. */
  method BuildAddressString(address: Address) returns (r: string)
    ensures r == AddressLine(address)
  {
    var parts: seq<string> := [];
    var street := Street(address);
    if street != "" {
      if Has(address, "house_number") {
        parts := parts + [address["house_number"] + " " + street];
      } else {
        parts := parts + [street];
      }
    }
    assert parts == StreetPart(address);
    if Has(address, "city") {
      parts := parts + [address["city"]];
    } else if Has(address, "town") {
      parts := parts + [address["town"]];
    } else if Has(address, "village") {
      parts := parts + [address["village"]];
    }
    assert parts == StreetPart(address) + PlacePart(address);
    if Has(address, "state") {
      parts := parts + [address["state"]];
    }
    assert parts == StreetPart(address) + PlacePart(address) + OptionalPart(address, "state");
    if Has(address, "country") {
      parts := parts + [address["country"]];
    }
    assert parts == AddressParts(address);
    AddressPartsNonEmpty(address);
    var kept := Filter(parts, NonEmptyRule());
    FilterKeepsAll(parts, NonEmptyRule());
    r := if kept == [] then "Address not found" else Join(kept, ", ");
  }

  /** Every part of the display line is non-empty, so dropping empty parts changes nothing. */
  lemma AddressPartsNonEmpty(address: Address)
    ensures forall i :: 0 <= i < |AddressParts(address)| ==> AddressParts(address)[i] != ""
  {
  }

  /** The display line is never empty; it is "Address not found" exactly when the record has no
      street, place, state or country. */
  lemma AddressLineSpec(address: Address)
    ensures AddressLine(address) != ""
    ensures AddressLine(address) == "Address not found" <==>
      (AddressParts(address) == [] || AddressParts(address) == ["Address not found"])
  {
    var parts := AddressParts(address);
    AddressPartsNonEmpty(address);
    if parts != [] {
      JoinNonEmpty(parts, ", ");
      if |parts| > 1 && Join(parts, ", ") == "Address not found" {
        JoinHasSeparator(parts, ", ");
        assert false;
      }
    }
  }

  /** A join of two or more parts contains the separator's first character. */
  lemma JoinHasSeparator(parts: seq<string>, sep: string)
    requires |parts| > 1 && sep != ""
    ensures sep[0] in Join(parts, sep)
  {
    var j := Join(parts, sep);
    assert j == parts[0] + sep + Join(parts[1..], sep);
    assert j[|parts[0]|] == sep[0];
  }

  /** A component in the service-independent shape. */
  datatype Component = Component(longName: string, shortName: string, types: seq<string>)

  /** The record fields turned into components, in this order, each with its one type. */
  const ComponentTable: seq<(string, string)> := [
    ("house_number", "street_number"),
    ("road", "route"),
    ("street", "route"),
    ("residential", "neighborhood"),
    ("suburb", "administrative_area_level_3"),
    ("city", "locality"),
    ("town", "locality"),
    ("village", "locality"),
    ("county", "administrative_area_level_2"),
    ("state", "administrative_area_level_1"),
    ("postcode", "postal_code"),
    ("country", "country")
  ]

  /** The component of one table row: one when the field is present, none otherwise. */
  function ComponentRule(address: Address): ((string, string)) -> seq<Component> {
    (row: (string, string)) =>
      if Has(address, row.0) then [Component(address[row.0], address[row.0], [row.1])] else []
  }

  function ComponentsOf(address: Address): seq<Component> {
    FlatMap(ComponentTable, ComponentRule(address))
  }

  /** `formatAddressComponents`. */
  method FormatAddressComponents(address: Address) returns (components: seq<Component>)
    ensures components == ComponentsOf(address)
  {
    components := [];
    for i := 0 to |ComponentTable|
      invariant components == FlatMap(ComponentTable[..i], ComponentRule(address))
    {
      FlatMapStep(ComponentTable, i, ComponentRule(address));
      var (key, kind) := ComponentTable[i];
      if Has(address, key) {
        components := components + [Component(address[key], address[key], [kind])];
      }
    }
    assert ComponentTable[..|ComponentTable|] == ComponentTable;
  }

  predicate WellShaped(c: Component) {
    c.longName == c.shortName && c.longName != "" && |c.types| == 1
  }

  function WellShapedRule(): Component -> bool {
    (c: Component) => WellShaped(c)
  }

  /** Every component repeats a non-empty field as both names and carries one type; a present
      field of the table always yields its component. */
  lemma ComponentsSpec(address: Address, i: nat)
    requires i < |ComponentTable|
    ensures All(ComponentsOf(address), WellShapedRule())
    ensures Has(address, ComponentTable[i].0) ==>
      Component(address[ComponentTable[i].0], address[ComponentTable[i].0], [ComponentTable[i].1]) in ComponentsOf(address)
  {
    FlatMapAll(ComponentTable, ComponentRule(address), WellShapedRule());
    FlatMapSplit(ComponentTable, i, ComponentRule(address));
  }

  // ---------------------------------------------------------------------
  // The route

  /** What the geocoding call gave: the request's own ten-second timeout firing (its error is named
      "TimeoutError"), a rejection named "AbortError", any other failure, a non-OK status, or a body
      with an optional address record and an optional display name. */
  datatype Answer =
    | TimedOut
    | Aborted
    | Threw
    | NotOk(status: int)
    | Body(address: Option<Address>, displayName: Option<string>)

  datatype Response = Failure(status: int, error: string) | Success(primary: string, components: seq<Component>)

  const MinInterval: int := 1100

  /** The wait before calling: whatever remains of 1.1 seconds since the previous call. */
  function WaitTime(lastRequestTime: int, now: int): (wait: int)
    ensures wait >= 0
    ensures now + wait >= lastRequestTime + MinInterval
    ensures wait > 0 ==> now + wait == lastRequestTime + MinInterval
  {
    var since := now - lastRequestTime;
    if since < MinInterval then MinInterval - since else 0
  }

  /** The response for what the call gave. */
  function Respond(answer: Answer): (resp: Response)
    ensures answer.Aborted? <==> resp == Failure(408, "Geocoding request timeout")
    ensures answer.TimedOut? || answer.Threw? ==> resp == Failure(500, "Internal server error")
    ensures answer.NotOk? ==> resp == Failure(answer.status, "Geocoding failed: HTTP " + IntToString(answer.status))
    ensures answer.Body? && answer.address.None? ==> resp == Failure(400, "No address found for these coordinates")
    ensures answer.Body? && answer.address.Some? ==>
      resp == Success(OrElse(answer.displayName, AddressLine(answer.address.value)), ComponentsOf(answer.address.value))
  {
    match answer
    case Aborted => Failure(408, "Geocoding request timeout")
    case TimedOut => Failure(500, "Internal server error")
    case Threw => Failure(500, "Internal server error")
    case NotOk(status) => Failure(status, "Geocoding failed: HTTP " + IntToString(status))
    case Body(address, displayName) =>
      if address.None? then Failure(400, "No address found for these coordinates")
      else Success(OrElse(displayName, AddressLine(address.value)), ComponentsOf(address.value))
  }

  /** The route with the time of its previous call. */
  class Geocoder {
    var lastRequestTime: int

    constructor ()
      ensures lastRequestTime == 0
    {
      lastRequestTime := 0;
    }

    /** `POST`: a rejected request answers 400 at once and leaves the timer alone; an accepted one
        waits out the interval, restarts the timer at the time it resumes, then answers from the
        service's answer. */
    method Post(body: RequestBody, now: int, resumedAt: int, answer: Answer) returns (wait: int, resp: Response)
      modifies this
      ensures body.Malformed? ==> wait == 0 && resp == Failure(500, "Internal server error") && lastRequestTime == old(lastRequestTime)
      ensures body.Coordinates? && CheckCoordinates(body.lat, body.lng).Some? ==>
        wait == 0 && resp == Failure(400, CheckCoordinates(body.lat, body.lng).value) &&
        lastRequestTime == old(lastRequestTime)
      ensures body.Coordinates? && CheckCoordinates(body.lat, body.lng).None? ==>
        wait == WaitTime(old(lastRequestTime), now) && lastRequestTime == resumedAt && resp == Respond(answer)
    {
      wait := 0;
      if body.Malformed? {
        return 0, Failure(500, "Internal server error");
      }
      var error := CheckCoordinates(body.lat, body.lng);
      if error.Some? {
        return 0, Failure(400, error.value);
      }
      var since := now - lastRequestTime;
      if since < MinInterval {
        wait := MinInterval - since;
      }
      lastRequestTime := resumedAt;
      match answer {
        case Aborted =>
          resp := Failure(408, "Geocoding request timeout");
        case TimedOut =>
          resp := Failure(500, "Internal server error");
        case Threw =>
          resp := Failure(500, "Internal server error");
        case NotOk(status) =>
          resp := Failure(status, "Geocoding failed: HTTP " + IntToString(status));
        case Body(address, displayName) =>
          if address.None? {
            resp := Failure(400, "No address found for these coordinates");
          } else {
            var components := FormatAddressComponents(address.value);
            if Truthy(displayName) {
              resp := Success(displayName.value, components);
            } else {
              var line := BuildAddressString(address.value);
              resp := Success(line, components);
            }
          }
      }
    }
  }

  /** Two accepted requests in a row reach the service at least 1.1 seconds apart: the second
      resumes no earlier than 1100 ms after the first resumed. This holds for requests handled one
      after the other, as `Post` is modelled; two requests that overlap both read the timer before
      either resets it, and may then call the service together. */
  lemma CallsSpaced(firstResumedAt: int, now: int)
    ensures now + WaitTime(firstResumedAt, now) - firstResumedAt >= MinInterval
  {
  }
}
