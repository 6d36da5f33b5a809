/** The Barcelona bike-hire harvester (`bicycle_hire_station_barcelona_harvest.py`): each
    Bicing station record becomes one BikeHireDockingStation entity, and all of them go to
    the broker in a single APPEND update. */
module BikeStations {
  import opened Wrappers
  import opened JsonValue
  import Text
  import Results
  import opened Batching

  const IdPrefix := "Bcn-BikeHireDockingStation-"
  const StationType := "BikeHireDockingStation"

  /** `str(v)` of a value used as a dictionary key, as a KeyError shows it; a float that is not
      a whole number is not rendered. */
  function KeyText(v: Json): (t: string)
    ensures v.JStr? ==> t == v.s
  {
    match v
    case JNull => "None"
    case JBool(b) => if b then "True" else "False"
    case JInt(i) => Text.IntToString(i)
    case JReal(x) => if x.Floor as real == x then Text.IntToString(x.Floor) + ".0" else "float"
    case JStr(s) => s
  }

  /** `status_dictionary[v]`: the keys are the strings 'OPN' and 'CLS'; any other value, a
      string or not, is a KeyError on it. */
  function Status(v: Json): (r: Result<string, Crash>)
    ensures r == Success("working") <==> v == JStr("OPN")
    ensures r == Success("outOfService") <==> v == JStr("CLS")
    ensures r.Failure? <==> v != JStr("OPN") && v != JStr("CLS")
    ensures r.Failure? ==> r.error == KeyError(KeyText(v))
  {
    if v == JStr("OPN") then Success("working")
    else if v == JStr("CLS") then Success("outOfService")
    else Failure(KeyError(KeyText(v)))
  }

  /** Python's `int(v)`: a bool is 0 or 1, a float is truncated toward zero, a string must be
      a decimal integer (ValueError otherwise), null is a TypeError. */
  function IntOf(v: Json): Result<int, Crash> {
    match v
    case JNull => Failure(TypeError)
    case JBool(b) => Success(if b then 1 else 0)
    case JInt(i) => Success(i)
    case JReal(x) => Success(if x >= 0.0 then x.Floor else -((-x).Floor))
    case JStr(s) => if Text.ParseInt(s).Some? then Success(Text.ParseInt(s).value) else Failure(ValueError)
  }

  /** `int` reads back every decimal rendering and every integer. */
  lemma IntOfReadsCounts(n: int)
    ensures IntOf(JStr(Text.IntToString(n))) == Success(n)
    ensures IntOf(JInt(n)) == Success(n)
  {
    Text.IntToStringRoundTrip(n);
  }

  /** `int` on a float truncates toward zero: the result is the whole number nearest the value
      on the side of zero. */
  lemma IntOfTruncates(x: real)
    ensures IntOf(JReal(x)).Success?
    ensures x >= 0.0 ==> IntOf(JReal(x)).value as real <= x < IntOf(JReal(x)).value as real + 1.0
    ensures x < 0.0 ==> IntOf(JReal(x)).value as real - 1.0 < x <= IntOf(JReal(x)).value as real
    ensures IntOf(JReal(-2.5)) == Success(-2) && IntOf(JReal(2.5)) == Success(2)
  {
    assert (2.5).Floor == 2;
  }

  /** `int` on text raises ValueError exactly when the stripped text is not an optionally
      signed run of decimal digits, such as the empty string or 'n/a'. */
  lemma IntOfRejectsText(s: string)
    ensures IntOf(JStr(s)).Failure? <==> !Text.IntLiteral(Text.Strip(s))
    ensures IntOf(JStr(s)).Failure? ==> IntOf(JStr(s)).error == ValueError
    ensures IntOf(JStr("")) == Failure(ValueError)
    ensures IntOf(JStr("n/a")) == Failure(ValueError)
  {
    Text.ParseIntDomain(s);
    Text.ParseIntDomain("");
    Text.ParseIntDomain("n/a");
    assert Text.Strip("") == "";
    NotAnIntLiteral();
  }

  /** 'n/a' is not an integer literal once stripped. */
  lemma NotAnIntLiteral()
    ensures !Text.IntLiteral(Text.Strip("n/a"))
  {
    Text.LetterFirstNotInt("n/a");
  }

  /** `d[key]` on the station record. */
  function Field(station: map<string, Json>, key: string): (r: Result<Json, Crash>)
    ensures r.Success? <==> key in station
    ensures r.Success? ==> r.value == station[key]
    ensures r.Failure? ==> r.error == KeyError(key)
  {
    if key in station then Success(station[key]) else Failure(KeyError(key))
  }

  /** A text field joined with `+`: anything but a string is a TypeError. */
  function TextField(station: map<string, Json>, key: string): (r: Result<string, Crash>)
    ensures r.Success? <==> key in station && station[key].JStr?
    ensures r.Success? ==> r.value == station[key].s
  {
    match Field(station, key)
    case Failure(e) => Failure(e)
    case Success(v) => if v.JStr? then Success(v.s) else Failure(TypeError)
  }

  /** The timestamp metadata both counters carry: the same object for both. */
  datatype Metadata = Metadata(timestamp: string)

  datatype Counter = Counter(value: int, metadata: Metadata)

  datatype Address = Address(addressCountry: string, addressLocality: string, streetAddress: string)

  datatype BikeHireDockingStation = BikeHireDockingStation(
    entityType: string,
    id: string,
    freeSlotNumber: Counter,
    availableBikeNumber: Counter,
    address: Address,
    coordinates: seq<Json>,
    status: string)

  /** `harmonize_station`, its fields evaluated in the order the dict literal lists them;
      `now` is the harvest time in Barcelona. */
  function Harmonize(station: map<string, Json>, now: string): Result<BikeHireDockingStation, Crash> {
    var metadata := Metadata(now);
    match TextField(station, "id")
    case Failure(e) => Failure(e)
    case Success(id) =>
      match Field(station, "slots")
      case Failure(e) => Failure(e)
      case Success(slotsField) =>
        match IntOf(slotsField)
        case Failure(e) => Failure(e)
        case Success(slots) =>
          match Field(station, "bikes")
          case Failure(e) => Failure(e)
          case Success(bikesField) =>
            match IntOf(bikesField)
            case Failure(e) => Failure(e)
            case Success(bikes) =>
              match TextField(station, "streetName")
              case Failure(e) => Failure(e)
              case Success(streetName) =>
                match TextField(station, "streetNumber")
                case Failure(e) => Failure(e)
                case Success(streetNumber) =>
                  match Coordinates(station)
                  case Failure(e) => Failure(e)
                  case Success(coordinates) =>
                    match Field(station, "status")
                    case Failure(e) => Failure(e)
                    case Success(code) =>
                      match Status(code)
                      case Failure(e) => Failure(e)
                      case Success(status) =>
                        Success(BikeHireDockingStation(
                          StationType,
                          IdPrefix + id,
                          Counter(slots, metadata),
                          Counter(bikes, metadata),
                          Address("ES", "Barcelona", Text.Sanitize(streetName + "," + streetNumber)),
                          coordinates,
                          status))
  }

  /** `[float(longitude), float(latitude), float(altitude)]`. */
  function Coordinates(station: map<string, Json>): (r: Result<seq<Json>, Crash>)
    ensures r.Success? <==> ("longitude" in station && station["longitude"] != JNull &&
                             "latitude" in station && station["latitude"] != JNull &&
                             "altitude" in station && station["altitude"] != JNull)
    ensures r.Success? ==> r.value == [station["longitude"], station["latitude"], station["altitude"]]
  {
    match Field(station, "longitude")
    case Failure(e) => Failure(e)
    case Success(lon) =>
      match Float(lon)
      case Failure(e) => Failure(e)
      case Success(_) =>
        match Field(station, "latitude")
        case Failure(e) => Failure(e)
        case Success(lat) =>
          match Float(lat)
          case Failure(e) => Failure(e)
          case Success(_) =>
            match Field(station, "altitude")
            case Failure(e) => Failure(e)
            case Success(alt) =>
              match Float(alt)
              case Failure(e) => Failure(e)
              case Success(_) => Success([lon, lat, alt])
  }

  /** A harmonised station: its id and type, the status word for its code, the sanitized street
      address joined with a comma, the counters read as integers sharing one timestamp. */
  lemma HarmonizeShape(station: map<string, Json>, now: string)
    requires Harmonize(station, now).Success?
    ensures var e := Harmonize(station, now).value;
      e.entityType == StationType && e.id == IdPrefix + station["id"].s &&
      Success(e.freeSlotNumber.value) == IntOf(station["slots"]) &&
      Success(e.availableBikeNumber.value) == IntOf(station["bikes"]) &&
      e.freeSlotNumber.metadata == e.availableBikeNumber.metadata == Metadata(now) &&
      e.address == Address("ES", "Barcelona", Text.Sanitize(station["streetName"].s + "," + station["streetNumber"].s)) &&
      Success(e.status) == Status(station["status"]) &&
      (e.status == "working" <==> station["status"] == JStr("OPN")) &&
      |e.coordinates| == 3
  {
  }

  /** The comma survives sanitizing, so the street address is the sanitized name, a comma and
      the sanitized number. */
  lemma StreetAddressParts(name: string, number: string)
    ensures Text.Sanitize(name + "," + number) == Text.Sanitize(name) + "," + Text.Sanitize(number)
    ensures Text.Clean(Text.Sanitize(name + "," + number))
  {
    Text.SanitizeConcat(name + ",", number);
    Text.SanitizeConcat(name, ",");
    Text.SanitizeChar(',');
  }

  /** An unknown status value, a string or not, aborts the harvest with a KeyError on it. */
  lemma UnknownStatusFails(station: map<string, Json>, now: string)
    requires TextField(station, "id").Success? && TextField(station, "streetName").Success? && TextField(station, "streetNumber").Success?
    requires "slots" in station && IntOf(station["slots"]).Success? && "bikes" in station && IntOf(station["bikes"]).Success?
    requires Coordinates(station).Success?
    requires "status" in station && station["status"] != JStr("OPN") && station["status"] != JStr("CLS")
    ensures Harmonize(station, now) == Failure(KeyError(KeyText(station["status"])))
  {
  }

  function HarmonizeStep(now: string): map<string, Json> -> Result<BikeHireDockingStation, Crash> {
    station => Harmonize(station, now)
  }

  /** `main` after the download: one entity per station, in order, sent in a single APPEND
      update; no data means the script exits without an update. */
  function Run(data: Option<seq<map<string, Json>>>, now: string): (r: Result<Option<UpdateRequest<BikeHireDockingStation>>, Crash>)
    ensures data.None? ==> r == Success(None)
    ensures data.Some? ==>
      (r.Success? <==> forall k :: 0 <= k < |data.value| ==> Harmonize(data.value[k], now).Success?)
    ensures data.Some? && r.Success? ==> (r.value.Some? && r.value.value.actionType == "APPEND" &&
      |r.value.value.entities| == |data.value| &&
      forall k :: 0 <= k < |data.value| ==> Success(r.value.value.entities[k]) == Harmonize(data.value[k], now))
  {
    match data
    case None => Success(None)
    case Some(stations) =>
      Results.MapAllSuccess(stations, HarmonizeStep(now));
      match Results.MapAll(stations, HarmonizeStep(now))
      case Failure(e) => Failure(e)
      case Success(entities) => Success(Some(Payload(entities)))
  }
}
