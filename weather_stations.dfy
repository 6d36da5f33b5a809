/** The weather-station uploader (`PointOfInterest/WeatherStation/upload.py`): every station of
    the AEMET registry file becomes one PointOfInterest entity, posted in batches. */
module WeatherStations {
  import opened Wrappers
  import opened JsonValue
  import Text
  import Results
  import opened SpanishRegistry
  import opened Batching
  import opened Collections

  const IdPrefix := "Spain-WeatherStations-"

  /** The `address` of an entity: country and locality always, province and community only
      outside the autonomous cities. */
  datatype Address = Address(addressCountry: string, addressLocality: Option<string>,
                             addressProvince: Option<string>, addressCommunity: Option<string>)

  datatype PointOfInterest = PointOfInterest(id: string, category: string, address: Address, coordinates: seq<Json>)

  /** The address of a station: nothing but the country without a municipality; with one, its
      sanitized name and, unless the province is of type '3', the province's and community's
      names. A reference that does not resolve is a KeyError. */
  function AddressOf(reg: Registry, station: Station): Result<Address, Crash> {
    match station.municipality
    case None => Success(Address("ES", None, None, None))
    case Some(m) =>
      match Lookup(reg.municipalities, m)
      case None => Failure(KeyError(m))
      case Some(municipality) =>
        var locality := Some(Text.Sanitize(municipality.name));
        if municipality.province !in reg.provinces then Failure(KeyError(municipality.province))
        else
          var province := reg.provinces[municipality.province];
          if province.kind == "3" then Success(Address("ES", locality, None, None))
          else if province.community !in reg.communities then Failure(KeyError(province.community))
          else Success(Address("ES", locality, Some(province.name), Some(reg.communities[province.community].name)))
  }

  /** `prepare_schema_one` for the station entry `(code, station)`. */
  function Entity(reg: Registry, entry: (string, Station)): Result<PointOfInterest, Crash> {
    var (code, station) := entry;
    match Float(station.longitude)
    case Failure(e) => Failure(e)
    case Success(longitude) =>
      match Float(station.latitude)
      case Failure(e) => Failure(e)
      case Success(latitude) =>
        match AddressOf(reg, station)
        case Failure(e) => Failure(e)
        case Success(address) => Success(PointOfInterest(IdPrefix + code, "WeatherStation", address, [longitude, latitude]))
  }

  /** The address hierarchy: the locality exactly when the station has a municipality, the
      province and community exactly when, besides, the province is not of type '3'; in a
      well-formed registry no lookup fails. */
  lemma AddressHierarchy(reg: Registry, station: Station)
    requires AddressOf(reg, station).Success?
    ensures var a := AddressOf(reg, station).value;
      a.addressCountry == "ES" &&
      (a.addressLocality.Some? <==> station.municipality.Some?) &&
      (a.addressLocality.Some? ==> (Text.Clean(a.addressLocality.value) &&
         a.addressLocality.value == Text.Sanitize(Lookup(reg.municipalities, station.municipality.value).value.name))) &&
      (a.addressProvince.Some? <==> a.addressCommunity.Some?) &&
      (a.addressProvince.Some? <==> (station.municipality.Some? &&
         reg.provinces[Lookup(reg.municipalities, station.municipality.value).value.province].kind != "3"))
  {
  }

  /** In a well-formed registry only a null coordinate can make an entity fail. */
  lemma {:induction false} WellFormedAddresses(reg: Registry, k: nat)
    requires WellFormed(reg) && k < |reg.stations|
    ensures AddressOf(reg, reg.stations[k].1).Success?
    ensures Entity(reg, reg.stations[k]).Success? <==>
      reg.stations[k].1.longitude != JNull && reg.stations[k].1.latitude != JNull
  {
    var station := reg.stations[k].1;
    if station.municipality.Some? {
      var m := Lookup(reg.municipalities, station.municipality.value);
      var i :| 0 <= i < |reg.municipalities| && reg.municipalities[i] == (station.municipality.value, m.value);
      assert reg.municipalities[i].1.province in reg.provinces;
    }
  }

  /** The entity of a station: id from its code, coordinates as [longitude, latitude]. */
  lemma EntityShape(reg: Registry, entry: (string, Station))
    requires Entity(reg, entry).Success?
    ensures var e := Entity(reg, entry).value;
      e.id == IdPrefix + entry.0 && e.category == "WeatherStation" &&
      e.coordinates == [entry.1.longitude, entry.1.latitude] && |e.coordinates| == 2 &&
      e.address == AddressOf(reg, entry.1).value
  {
  }

  /** Distinct station codes give distinct ids. */
  lemma IdsDistinct(a: string, b: string)
    ensures IdPrefix + a == IdPrefix + b <==> a == b
  {
    assert (IdPrefix + a)[|IdPrefix|..] == a && (IdPrefix + b)[|IdPrefix|..] == b;
  }

  function EntityStep(reg: Registry): ((string, Station)) -> Result<PointOfInterest, Crash> {
    entry => Entity(reg, entry)
  }

  /** `prepare_schema`: one entity per station key, in the file's order. */
  function PrepareSchema(reg: Registry): (r: Result<seq<PointOfInterest>, Crash>)
    ensures r.Success? <==> forall k :: 0 <= k < |reg.stations| ==> Entity(reg, reg.stations[k]).Success?
    ensures r.Success? ==> (|r.value| == |reg.stations| &&
      forall k :: 0 <= k < |reg.stations| ==> Success(r.value[k]) == Entity(reg, reg.stations[k]))
  {
    Results.MapAllSuccess(reg.stations, EntityStep(reg));
    Results.MapAll(reg.stations, EntityStep(reg))
  }

  /** The script's run: the entities are built, then posted in batches of `limit` (the same
      number caps the concurrent requests); the reasons of the failed batches are logged once
      each. A negative limit is refused by the semaphore; a zero limit never finishes. */
  method Upload(reg: Registry, limit: int, broker: (nat, UpdateRequest<PointOfInterest>) -> Response)
    returns (r: Result<seq<string>, Crash>)
    requires limit != 0 || PrepareSchema(reg).Failure?
    ensures r.Failure? <==> PrepareSchema(reg).Failure? || limit < 0
    ensures PrepareSchema(reg).Failure? ==> r == Failure(PrepareSchema(reg).error)
    ensures PrepareSchema(reg).Success? && limit < 0 ==> r == Failure(ValueError)
    ensures r.Success? ==> (limit >= 1 && NoDuplicates(r.value) &&
      forall reason :: reason in r.value <==>
        Failed(reason) in Outcomes(Batches(PrepareSchema(reg).value, limit), ShortWording, broker))
  {
    var entities := PrepareSchema(reg);
    if entities.Failure? {
      return Failure(entities.error);
    }
    if limit < 0 {
      return Failure(ValueError);
    }
    var body := new EntityList(entities.value);
    var logged := Post(body, limit, ShortWording, broker);
    r := Success(logged);
  }
}
