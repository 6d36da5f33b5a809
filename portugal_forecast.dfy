/** The IPMA daily forecast harvester (`WeatherForecast/harvest/portugal/harvester.py`): one
    24-hour WeatherForecast per location for each of today and tomorrow. */
module PortugalForecast {
  import opened Wrappers
  import opened JsonValue
  import opened Time
  import Text
  import Compass
  import Selection = Registry
  import Results
  import opened Forecast
  import opened Collections

  const IdPrefix := "Portugal-WeatherForecast-"
  const SourceUrl := "http://www.ipma.pt"
  const ObservationUrlPrefix := "http://api.ipma.pt/json/alldata/"

  /** `tz_azot_codes`: the locations on the Azores. */
  const AzoresCodes: seq<string> :=
    ["3490100", "3480200", "3470100", "3460200", "3450200", "3440100", "3420300", "3410100"]

  /** The suffix the script appends to today's and tomorrow's date to match IPMA's `dataPrev`. */
  const Midnight := "T00:00:00"

  // ---------------------------------------------------------------------------------------
  // check_entity
  // ---------------------------------------------------------------------------------------

  /** IPMA's missing-value markers: the string '-99.0', or any number Python finds equal to
      -99 (so -99, -99.0). */
  predicate Sentinel(v: Json) {
    v == JStr("-99.0") || EqualsInt(v, -99)
  }

  /** `check_entity(forecast, item)`; a JSON null is Python's None, so it comes out as None. */
  function CheckEntity(forecast: map<string, Json>, item: string): (r: Option<Json>)
    ensures r.Some? <==> item in forecast && forecast[item] != JNull && !Sentinel(forecast[item])
    ensures r.Some? ==> r.value == forecast[item]
  {
    if item in forecast && forecast[item] != JNull && !Sentinel(forecast[item]) then Some(forecast[item]) else None
  }

  /** Which spellings of -99 are markers: the string '-99' is a value, the float -99.0 is not. */
  lemma SentinelSpellings(item: string)
    ensures CheckEntity(map[item := JInt(-99)], item) == None
    ensures CheckEntity(map[item := JReal(-99.0)], item) == None
    ensures CheckEntity(map[item := JStr("-99.0")], item) == None
    ensures CheckEntity(map[item := JStr("-99")], item) == Some(JStr("-99"))
    ensures CheckEntity(map[item := JReal(-9.9)], item) == Some(JReal(-9.9))
  {
    assert JStr("-99") != JStr("-99.0") by {
      assert |"-99"| != |"-99.0"|;
    }
  }

  // ---------------------------------------------------------------------------------------
  // harvest_one: one forecast record per date
  // ---------------------------------------------------------------------------------------

  /** What `harvest_one` stores under a date: the checked readings, the issue time and the
      period. */
  datatype Slot = Slot(
    feelsLikeTemperature: Option<Json>, issued: string, period: Json,
    precipitationProbability: Option<Json>, relativeHumidity: Option<Json>, temperature: Option<Json>,
    tMax: Option<Json>, tMin: Option<Json>, weatherType: Option<Json>,
    windDirection: Option<Json>, windSpeed: Option<Json>)

  /** The date and record `harvest_one` takes from one IPMA forecast: 'dataPrev', 'dataUpdate'
      and 'idPeriodo' are read directly (KeyError when absent; `strptime` needs a string), the
      readings through `check_entity`. */
  function SlotOf(forecast: map<string, Json>): (r: Result<(Json, Slot), Crash>)
    ensures r.Success? <==>
      "dataPrev" in forecast && "dataUpdate" in forecast && forecast["dataUpdate"].JStr? && "idPeriodo" in forecast
    ensures "dataPrev" !in forecast ==> r == Failure(KeyError("dataPrev"))
    ensures "dataPrev" in forecast && "dataUpdate" !in forecast ==> r == Failure(KeyError("dataUpdate"))
    ensures r.Success? ==>
      r.value.0 == forecast["dataPrev"] && r.value.1.period == forecast["idPeriodo"] &&
      r.value.1.issued == forecast["dataUpdate"].s
    ensures r.Success? ==>
      var slot := r.value.1;
      slot.feelsLikeTemperature == CheckEntity(forecast, "utci") &&
      slot.precipitationProbability == CheckEntity(forecast, "probabilidadePrecipita") &&
      slot.relativeHumidity == CheckEntity(forecast, "hR") &&
      slot.temperature == CheckEntity(forecast, "tMed") &&
      slot.tMax == CheckEntity(forecast, "tMax") && slot.tMin == CheckEntity(forecast, "tMin") &&
      slot.weatherType == CheckEntity(forecast, "idTipoTempo") &&
      slot.windDirection == CheckEntity(forecast, "ddVento") &&
      slot.windSpeed == CheckEntity(forecast, "ffVento")
  {
    if "dataPrev" !in forecast then Failure(KeyError("dataPrev"))
    else if "dataUpdate" !in forecast then Failure(KeyError("dataUpdate"))
    else if !forecast["dataUpdate"].JStr? then Failure(TypeError)
    else if "idPeriodo" !in forecast then Failure(KeyError("idPeriodo"))
    else
      Success((forecast["dataPrev"], Slot(
        feelsLikeTemperature := CheckEntity(forecast, "utci"),
        issued := forecast["dataUpdate"].s,
        period := forecast["idPeriodo"],
        precipitationProbability := CheckEntity(forecast, "probabilidadePrecipita"),
        relativeHumidity := CheckEntity(forecast, "hR"),
        temperature := CheckEntity(forecast, "tMed"),
        tMax := CheckEntity(forecast, "tMax"),
        tMin := CheckEntity(forecast, "tMin"),
        weatherType := CheckEntity(forecast, "idTipoTempo"),
        windDirection := CheckEntity(forecast, "ddVento"),
        windSpeed := CheckEntity(forecast, "ffVento"))))
  }

  /** `result['forecasts']`: a Python dict from dates to records, its keys in insertion order. */
  datatype DateDict = DateDict(dates: seq<Json>, records: map<Json, Slot>)

  /** Each key listed once, and the listed keys are exactly the dict's keys. */
  ghost predicate WellKeyed(dict: DateDict) {
    NoDuplicates(dict.dates) && forall d :: d in dict.dates <==> d in dict.records
  }

  /** Storing the record of one more forecast: a new date goes after the others, a date
      already present keeps its place and takes the new record. */
  function Store(dict: DateDict, date: Json, slot: Slot): (r: DateDict)
    requires WellKeyed(dict)
    ensures WellKeyed(r)
    ensures r.records == dict.records[date := slot]
    ensures r.dates == if date in dict.records then dict.dates else dict.dates + [date]
  {
    var dates := if date in dict.records then dict.dates else dict.dates + [date];
    assert NoDuplicates(dates) by {
      if date !in dict.records {
        forall p, q | 0 <= p < q < |dates| ensures dates[p] != dates[q] {
          if q == |dict.dates| {
            assert dates[p] == dict.dates[p];
          } else {
            assert dates[p] == dict.dates[p] && dates[q] == dict.dates[q];
          }
        }
      }
    }
    DateDict(dates, dict.records[date := slot])
  }

  /** The dict after the records of all forecasts are stored in order. */
  function StoreAll(slots: seq<(Json, Slot)>): (r: DateDict)
    ensures WellKeyed(r)
  {
    if slots == [] then DateDict([], map[])
    else
      var n := |slots| - 1;
      Store(StoreAll(slots[..n]), slots[n].0, slots[n].1)
  }

  lemma StoreAllSnoc(slots: seq<(Json, Slot)>, x: (Json, Slot))
    ensures StoreAll(slots + [x]) == Store(StoreAll(slots), x.0, x.1)
  {
    assert (slots + [x])[..|slots|] == slots;
  }

  /** The dict's dates are exactly the forecasts' dates, each listed once, and each holds the
      record of the last forecast for that date. */
  lemma {:induction false} StoreAllLastWins(slots: seq<(Json, Slot)>, k: nat)
    requires k < |slots| && forall j :: k < j < |slots| ==> slots[j].0 != slots[k].0
    ensures slots[k].0 in StoreAll(slots).records
    ensures StoreAll(slots).records[slots[k].0] == slots[k].1
  {
    var n := |slots| - 1;
    var prefix := slots[..n];
    assert StoreAll(slots).records == StoreAll(prefix).records[slots[n].0 := slots[n].1];
    if k < n {
      assert prefix[k] == slots[k];
      assert forall j :: k < j < |prefix| ==> prefix[j].0 != prefix[k].0;
      StoreAllLastWins(prefix, k);
    }
  }

  lemma {:induction false} StoreAllDates(slots: seq<(Json, Slot)>)
    ensures NoDuplicates(StoreAll(slots).dates)
    ensures forall d :: d in StoreAll(slots).dates <==> d in Dates(slots)
  {
    if slots != [] {
      var n := |slots| - 1;
      StoreAllDates(slots[..n]);
      assert Dates(slots) == Dates(slots[..n]) + [slots[n].0];
    }
  }

  /** The dict's entries in key order. */
  function Entries(dict: DateDict): (r: seq<(Json, Slot)>)
    requires WellKeyed(dict)
    ensures Dates(r) == dict.dates
  {
    var r := seq(|dict.dates|, i requires 0 <= i < |dict.dates| => (dict.dates[i], dict.records[dict.dates[i]]));
    assert Dates(r) == dict.dates;
    r
  }

  /** The loop of `harvest_one` over a location's forecasts, as a function: every record is
      read, the first exception aborting, and stored under its date. */
  function HarvestForecasts(content: seq<map<string, Json>>): Result<DateDict, Crash> {
    match Results.MapAll(content, SlotOf)
    case Failure(e) => Failure(e)
    case Success(slots) => Success(StoreAll(slots))
  }

  /** The loop of `harvest_one`: each forecast's record is stored under its date in turn. */
  method HarvestRecords(content: seq<map<string, Json>>) returns (r: Result<DateDict, Crash>)
    ensures r == HarvestForecasts(content)
  {
    var dict := DateDict([], map[]);
    ghost var slots: seq<(Json, Slot)> := [];
    for n := 0 to |content|
      invariant Results.MapAll(content[..n], SlotOf) == Success(slots)
      invariant dict == StoreAll(slots)
    {
      var one := SlotOf(content[n]);
      if one.Failure? {
        Results.MapAllStopsAt(content, n, SlotOf);
        return Failure(one.error);
      }
      Results.MapAllStep(content, n, SlotOf, slots);
      StoreAllSnoc(slots, one.value);
      dict := Store(dict, one.value.0, one.value.1);
      slots := slots + [one.value];
    }
    assert content[..|content|] == content;
    r := Success(dict);
  }

  /** A harvested location's dates are distinct, so it yields at most two entities. */
  lemma HarvestedAtMostTwo(content: seq<map<string, Json>>, today: string, tomorrow: string)
    requires HarvestForecasts(content).Success?
    ensures NoDuplicates(Dates(Entries(HarvestForecasts(content).value)))
    ensures |Kept(Entries(HarvestForecasts(content).value), today, tomorrow)| <= 2
  {
    var slots := Results.MapAll(content, SlotOf).value;
    StoreAllDates(slots);
    AtMostTwo(Entries(HarvestForecasts(content).value), today, tomorrow);
  }

  /** What `harvest_one` returns for a location: the entries of its dict of dates. */
  datatype Harvested = Harvested(id: string, retrieved: string, forecasts: seq<(Json, Slot)>)

  // ---------------------------------------------------------------------------------------
  // decode_weather_type and the time zone
  // ---------------------------------------------------------------------------------------

  /** The int-keyed table of `decode_weather_type`. */
  function WeatherTable(k: int): Option<string> {
    match k
    case 1 => Some("clear")
    case 2 => Some("slightlyCloudy")
    case 3 => Some("partlyCloudy")
    case 4 => Some("overcast")
    case 5 => Some("highClouds")
    case 6 => Some("lightRain")
    case 7 => Some("drizzle")
    case 9 => Some("rain")
    case 11 => Some("heavyRain")
    case _ => None
  }

  const WeatherCodes: set<int> := {1, 2, 3, 4, 5, 6, 7, 9, 11}

  /** `dict.get` with Python's key equality: any number equal to a key finds it (True is 1,
      3.0 is 3); a string never does. */
  function DecodeWeatherType(value: Json): Option<string> {
    match Numeric(value)
    case None => None
    case Some(x) => if x.Floor as real == x then WeatherTable(x.Floor) else None
  }

  /** The table is decoded exactly on the numbers equal to its nine codes. */
  lemma {:induction false} WeatherTypeDomain(value: Json)
    ensures DecodeWeatherType(value).Some? <==>
      Numeric(value).Some? && Numeric(value).value.Floor as real == Numeric(value).value &&
      Numeric(value).value.Floor in WeatherCodes
    ensures DecodeWeatherType(JInt(8)) == None && DecodeWeatherType(JInt(10)) == None
    ensures DecodeWeatherType(JStr("1")) == None
    ensures DecodeWeatherType(JBool(true)) == Some("clear") && DecodeWeatherType(JReal(3.0)) == Some("partlyCloudy")
  {
    assert (1.0).Floor == 1 && (3.0).Floor == 3 && (8 as real).Floor == 8 && (10 as real).Floor == 10;
  }

  // ---------------------------------------------------------------------------------------
  // prepare_schema_one
  // ---------------------------------------------------------------------------------------

  /** The record `setup_stations` keeps for a location. */
  datatype Location = Location(postalCode: string, addressLocality: string, url: string)

  /** `float(v / 100)` as written: dividing a string is a TypeError. */
  function ScaledAsWritten(v: Json): Result<Json, Crash> {
    if v.JStr? then Failure(TypeError) else Success(v)
  }

  /** `float(v) / 100`, the conversion the other harvesters apply: a numeric string is
      converted before it is divided. */
  function Scaled(v: Json): Result<Json, Crash> {
    Success(v)
  }

  /** The precipitation probability is checked against the '-99.0' string marker, so IPMA may
      send it as text; the written conversion then raises where the intended one does not. */
  lemma {:induction false} ScaledStringCounterexample()
    ensures ScaledAsWritten(JStr("20.0")) == Failure(TypeError)
    ensures Scaled(JStr("20.0")) == Success(JStr("20.0"))
    ensures forall v: Json :: !v.JStr? ==> ScaledAsWritten(v) == Scaled(v)
    ensures forall v: Json :: ScaledAsWritten(v).Failure? <==> v.JStr?
    ensures forall v: Json :: Scaled(v).Success?
  {
  }

  /** Everything `prepare_schema_one` fixes before its loop (`today` and `tomorrow` are dates). */
  datatype Context = Context(id: string, zone: Zone, retrieved: string, clock: Clock,
                             latest: bool, today: string, tomorrow: string, stations: map<string, Location>)

  /** The entity id: with `latest`, `_today_`/`_tomorrow_` and the short local times (once
      for each of today and tomorrow the date equals); otherwise the local ISO times. */
  function ForecastId(ctx: Context, date: string, from: LocalTime, to: LocalTime): string {
    var fromShort := ctx.clock.short(ctx.zone, from);
    var toShort := ctx.clock.short(ctx.zone, to);
    if ctx.latest then
      IdPrefix
      + (if date == ctx.today + Midnight then ctx.id + "_today_" + fromShort + "_" + toShort else "")
      + (if date == ctx.tomorrow + Midnight then ctx.id + "_tomorrow_" + fromShort + "_" + toShort else "")
    else
      IdPrefix + ctx.id + "_" + ctx.clock.iso(ctx.zone, from) + "_" + ctx.clock.iso(ctx.zone, to)
  }

  /** The body of the loop for a kept date, with `scale` converting the precipitation
      probability: the window runs from its midnight for 24 hours. */
  function EntityWith(scale: Json -> Result<Json, Crash>, ctx: Context, w: (string, Slot)): Result<WeatherForecast, Crash> {
    var (date, ft) := w;
    var from := LocalTime(date, 0);
    var to := LocalTime(date, 24);
    if ctx.id !in ctx.stations then Failure(KeyError(ctx.id))
    else
      match Float(OrNull(ft.tMax))
      case Failure(e) => Failure(e)
      case Success(tMax) =>
        match Float(OrNull(ft.tMin))
        case Failure(e) => Failure(e)
        case Success(tMin) =>
          match (if ft.precipitationProbability.Some? then scale(ft.precipitationProbability.value) else Success(JNull))
          case Failure(e) => Failure(e)
          case Success(_) =>
            Success(WeatherForecast(
              id := ForecastId(ctx, date, from, to),
              addressCountry := "PT",
              addressLocality := ctx.stations[ctx.id].addressLocality,
              postalCode := ctx.stations[ctx.id].postalCode,
              dateIssued := ctx.clock.utc(ctx.zone, LocalTime(ft.issued, 0)),
              dateRetrieved := ctx.retrieved,
              dataProvider := DataProvider,
              source := SourceUrl,
              dayMaximum := Extremes(None, Some(tMax), None),
              dayMinimum := Extremes(None, Some(tMin), None),
              feelsLikeTemperature := ft.feelsLikeTemperature,
              precipitationProbability := ft.precipitationProbability,
              relativeHumidity := ft.relativeHumidity,
              temperature := ft.temperature,
              validFrom := ctx.clock.utc(ctx.zone, from),
              validTo := ctx.clock.utc(ctx.zone, to),
              validity := Validity(ctx.clock.iso(ctx.zone, from), ctx.clock.iso(ctx.zone, to)),
              weatherType := if ft.weatherType.Some? then DecodeWeatherType(ft.weatherType.value) else None,
              windDirection := if ft.windDirection.Some? then Compass.DecodeForecast(ft.windDirection.value) else None,
              windSpeed := ft.windSpeed))
  }

  /** The loop body as written: the probability is divided before it is converted. */
  function Entity(ctx: Context, w: (string, Slot)): Result<WeatherForecast, Crash> {
    EntityWith(ScaledAsWritten, ctx, w)
  }

  /** The loop body as evidently intended: the probability is converted, then divided. */
  function EntityIntended(ctx: Context, w: (string, Slot)): Result<WeatherForecast, Crash> {
    EntityWith(Scaled, ctx, w)
  }

  function EntityStep(ctx: Context): ((string, Slot)) -> Result<WeatherForecast, Crash> {
    w => Entity(ctx, w)
  }

  /** The loop's filter: the date is today's or tomorrow's midnight and the period is 24 hours. */
  predicate Wanted(entry: (Json, Slot), today: string, tomorrow: string) {
    (entry.0 == JStr(today + Midnight) || entry.0 == JStr(tomorrow + Midnight)) && EqualsInt(entry.1.period, 24)
  }

  /** The dates the loop builds an entity for, in order. */
  function Kept(forecasts: seq<(Json, Slot)>, today: string, tomorrow: string): (r: seq<(string, Slot)>)
    ensures |r| <= |forecasts|
  {
    if forecasts == [] then []
    else
      var last := forecasts[|forecasts| - 1];
      Kept(forecasts[..|forecasts| - 1], today, tomorrow)
      + (if Wanted(last, today, tomorrow) then [(last.0.s, last.1)] else [])
  }

  /** A date is kept exactly when it is today's or tomorrow's midnight with a 24-hour period. */
  lemma {:induction false} KeptMembers(forecasts: seq<(Json, Slot)>, today: string, tomorrow: string)
    ensures forall d, s :: (d, s) in Kept(forecasts, today, tomorrow) <==>
      (JStr(d), s) in forecasts && Wanted((JStr(d), s), today, tomorrow)
  {
    if forecasts != [] {
      var init := forecasts[..|forecasts| - 1];
      KeptMembers(init, today, tomorrow);
      assert forecasts == init + [forecasts[|forecasts| - 1]];
    }
  }

  /** The dates of the kept entries, in order. */
  function KeptDates(forecasts: seq<(Json, Slot)>, today: string, tomorrow: string): seq<Json> {
    var k := Kept(forecasts, today, tomorrow);
    seq(|k|, i requires 0 <= i < |k| => JStr(k[i].0))
  }

  function Dates(forecasts: seq<(Json, Slot)>): seq<Json> {
    seq(|forecasts|, i requires 0 <= i < |forecasts| => forecasts[i].0)
  }

  /** One more date: it is kept exactly when it is wanted. */
  lemma KeptSnoc(forecasts: seq<(Json, Slot)>, n: nat, today: string, tomorrow: string)
    requires n < |forecasts|
    ensures Kept(forecasts[..n + 1], today, tomorrow) ==
      Kept(forecasts[..n], today, tomorrow)
      + (if Wanted(forecasts[n], today, tomorrow) then [(forecasts[n].0.s, forecasts[n].1)] else [])
  {
    assert forecasts[..n + 1][..n] == forecasts[..n];
  }

  /** Every kept date is one of the dates and is today's or tomorrow's midnight. */
  lemma {:induction false} KeptDatesFromDates(forecasts: seq<(Json, Slot)>, today: string, tomorrow: string)
    ensures forall d :: d in KeptDates(forecasts, today, tomorrow) ==> d in Dates(forecasts)
    ensures forall d :: d in KeptDates(forecasts, today, tomorrow) ==> d == JStr(today + Midnight) || d == JStr(tomorrow + Midnight)
  {
    if forecasts != [] {
      var init := forecasts[..|forecasts| - 1];
      var last := forecasts[|forecasts| - 1];
      KeptDatesFromDates(init, today, tomorrow);
      assert Dates(init) == Dates(forecasts)[..|forecasts| - 1];
      assert last.0 == Dates(forecasts)[|forecasts| - 1];
      if Wanted(last, today, tomorrow) {
        assert KeptDates(forecasts, today, tomorrow) == KeptDates(init, today, tomorrow) + [last.0];
      } else {
        assert KeptDates(forecasts, today, tomorrow) == KeptDates(init, today, tomorrow);
      }
    }
  }

  /** The kept dates are a subsequence of the dates, so distinct dates stay distinct. */
  lemma {:induction false} KeptDatesDistinct(forecasts: seq<(Json, Slot)>, today: string, tomorrow: string)
    requires NoDuplicates(Dates(forecasts))
    ensures NoDuplicates(KeptDates(forecasts, today, tomorrow))
  {
    if forecasts != [] {
      var n := |forecasts| - 1;
      var init := forecasts[..n];
      var last := forecasts[n];
      assert Dates(init) == Dates(forecasts)[..n];
      KeptDatesDistinct(init, today, tomorrow);
      var k0 := KeptDates(init, today, tomorrow);
      if Wanted(last, today, tomorrow) {
        var k := KeptDates(forecasts, today, tomorrow);
        assert k == k0 + [last.0];
        KeptDatesFromDates(init, today, tomorrow);
        assert last.0 !in Dates(init) by {
          assert forall i :: 0 <= i < n ==> Dates(init)[i] != Dates(forecasts)[n];
        }
        assert last.0 !in k0;
        forall p, q | 0 <= p < q < |k|
          ensures k[p] != k[q]
        {
          if q == |k0| {
            assert k[p] == k0[p];
          } else {
            assert k[p] == k0[p] && k[q] == k0[q];
          }
        }
      } else {
        assert KeptDates(forecasts, today, tomorrow) == k0;
      }
    }
  }

  /** With distinct dates, at most one entity for today and one for tomorrow. */
  lemma AtMostTwo(forecasts: seq<(Json, Slot)>, today: string, tomorrow: string)
    requires NoDuplicates(Dates(forecasts))
    ensures |Kept(forecasts, today, tomorrow)| <= 2
  {
    var dates := KeptDates(forecasts, today, tomorrow);
    KeptDatesDistinct(forecasts, today, tomorrow);
    KeptDatesFromDates(forecasts, today, tomorrow);
    ElementsCard(dates);
    var both := {JStr(today + Midnight), JStr(tomorrow + Midnight)};
    assert Elements(dates) <= both;
    SubsetCard(Elements(dates), both);
  }

  /** What `prepare_schema_one` returns for one harvested location. */
  function SchemaOne(source: Harvested, stations: map<string, Location>, clock: Clock,
                     latest: bool, today: string, tomorrow: string): Result<seq<WeatherForecast>, Crash>
  {
    var ctx := Context(source.id, PortugueseZone(source.id, AzoresCodes), source.retrieved, clock, latest, today, tomorrow, stations);
    Results.MapAll(Kept(source.forecasts, today, tomorrow), EntityStep(ctx))
  }

  /** The precipitation probability arrives as text. */
  predicate TextProbability(ft: Slot) {
    ft.precipitationProbability.Some? && ft.precipitationProbability.value.JStr?
  }

  /** Each entity covers 24 hours from its date's midnight in the location's zone; an unknown
      location is a KeyError; a missing maximum or minimum temperature, or a probability sent
      as text, aborts the pass with TypeError. */
  lemma EntityWindow(ctx: Context, date: string, ft: Slot)
    ensures ctx.id !in ctx.stations ==> Entity(ctx, (date, ft)) == Failure(KeyError(ctx.id))
    ensures ctx.id in ctx.stations && (OrNull(ft.tMax) == JNull || OrNull(ft.tMin) == JNull || TextProbability(ft)) ==>
      Entity(ctx, (date, ft)) == Failure(TypeError)
    ensures Entity(ctx, (date, ft)).Success? <==>
      ctx.id in ctx.stations && OrNull(ft.tMax) != JNull && OrNull(ft.tMin) != JNull && !TextProbability(ft)
    ensures Entity(ctx, (date, ft)).Success? ==>
      var e := Entity(ctx, (date, ft)).value;
      e.validity == Validity(ctx.clock.iso(ctx.zone, LocalTime(date, 0)), ctx.clock.iso(ctx.zone, LocalTime(date, 24))) &&
      e.dayMaximum.temperature == ft.tMax && e.dayMinimum.temperature == ft.tMin &&
      e.relativeHumidity == ft.relativeHumidity
  {
  }

  /** The intended loop body fails only on an unknown location or a missing extreme; the two
      bodies differ exactly on a probability sent as text, and agree wherever the written one
      succeeds. */
  lemma IntendedEntity(ctx: Context, date: string, ft: Slot)
    ensures EntityIntended(ctx, (date, ft)).Success? <==> ctx.id in ctx.stations && OrNull(ft.tMax) != JNull && OrNull(ft.tMin) != JNull
    ensures Entity(ctx, (date, ft)) != EntityIntended(ctx, (date, ft)) <==>
      ctx.id in ctx.stations && OrNull(ft.tMax) != JNull && OrNull(ft.tMin) != JNull && TextProbability(ft)
    ensures Entity(ctx, (date, ft)).Success? ==> Entity(ctx, (date, ft)) == EntityIntended(ctx, (date, ft))
  {
  }

  /** The id of a kept date: the prefix and location code, then `_today_`/`_tomorrow_` and the
      short local times with `latest`, or the local ISO times without it. */
  lemma IdShape(ctx: Context, date: string, ft: Slot)
    requires ctx.today != ctx.tomorrow && (date == ctx.today + Midnight || date == ctx.tomorrow + Midnight)
    requires Entity(ctx, (date, ft)).Success?
    ensures var from := LocalTime(date, 0);
      var to := LocalTime(date, 24);
      Entity(ctx, (date, ft)).value.id ==
        if ctx.latest then
          IdPrefix + ctx.id + (if date == ctx.today + Midnight then "_today_" else "_tomorrow_")
          + ctx.clock.short(ctx.zone, from) + "_" + ctx.clock.short(ctx.zone, to)
        else
          IdPrefix + ctx.id + "_" + ctx.clock.iso(ctx.zone, from) + "_" + ctx.clock.iso(ctx.zone, to)
  {
    SuffixCancels(ctx.today, ctx.tomorrow, Midnight);
  }

  lemma SuffixCancels(a: string, b: string, suffix: string)
    ensures a + suffix == b + suffix ==> a == b
  {
    if a + suffix == b + suffix {
      assert a == (a + suffix)[..|a|] && b == (b + suffix)[..|b|];
    }
  }

  /** `prepare_schema_one`: the time zone from the code list, then the loop over the dates. */
  method PrepareSchemaOne(source: Harvested, stations: map<string, Location>, clock: Clock,
                          latest: bool, today: string, tomorrow: string)
    returns (r: Result<seq<WeatherForecast>, Crash>)
    ensures r == SchemaOne(source, stations, clock, latest, today, tomorrow)
  {
    var zone := PortugueseZone(source.id, AzoresCodes);
    var ctx := Context(source.id, zone, source.retrieved, clock, latest, today, tomorrow, stations);
    r := DateLoop(source.forecasts, today, tomorrow, EntityStep(ctx));
  }

  /** The loop over the dates: skip the unwanted ones, build the others with `build`; the
      first exception aborts. */
  method DateLoop<E>(forecasts: seq<(Json, Slot)>, today: string, tomorrow: string,
                     build: ((string, Slot)) -> Result<E, Crash>)
    returns (r: Result<seq<E>, Crash>)
    ensures r == Results.MapAll(Kept(forecasts, today, tomorrow), build)
  {
    var result: seq<E> := [];
    for n := 0 to |forecasts|
      invariant Results.MapAll(Kept(forecasts[..n], today, tomorrow), build) == Success(result)
    {
      KeptSnoc(forecasts, n, today, tomorrow);
      var entry := forecasts[n];
      if !Wanted(entry, today, tomorrow) {
        assert Kept(forecasts[..n], today, tomorrow) + [] == Kept(forecasts[..n], today, tomorrow);
        continue;
      }
      var w := (entry.0.s, entry.1);
      Results.MapAllSnoc(Kept(forecasts[..n], today, tomorrow), w, build);
      var e := build(w);
      if e.Failure? {
        KeptFailureStays(forecasts, n + 1, today, tomorrow, build);
        return Failure(e.error);
      }
      result := result + [e.value];
    }
    assert forecasts[..|forecasts|] == forecasts;
    r := Success(result);
  }

  /** Once a kept date fails, the whole pass fails with that crash. */
  lemma KeptFailureStays<E>(forecasts: seq<(Json, Slot)>, n: nat, today: string, tomorrow: string,
                            build: ((string, Slot)) -> Result<E, Crash>)
    requires n <= |forecasts|
    requires Results.MapAll(Kept(forecasts[..n], today, tomorrow), build).Failure?
    ensures Results.MapAll(Kept(forecasts, today, tomorrow), build) ==
      Results.MapAll(Kept(forecasts[..n], today, tomorrow), build)
  {
    KeptPrefix(forecasts, n, today, tomorrow);
    Results.MapAllFailurePrefix(Kept(forecasts[..n], today, tomorrow), KeptFrom(forecasts, n, today, tomorrow), build);
  }

  /** The dates kept from index n on. */
  function KeptFrom(forecasts: seq<(Json, Slot)>, n: nat, today: string, tomorrow: string): seq<(string, Slot)>
    requires n <= |forecasts|
    decreases |forecasts| - n
  {
    if n == |forecasts| then []
    else
      var entry := forecasts[n];
      (if Wanted(entry, today, tomorrow) then [(entry.0.s, entry.1)] else []) + KeptFrom(forecasts, n + 1, today, tomorrow)
  }

  lemma {:induction false} KeptPrefix(forecasts: seq<(Json, Slot)>, n: nat, today: string, tomorrow: string)
    requires n <= |forecasts|
    ensures Kept(forecasts, today, tomorrow) == Kept(forecasts[..n], today, tomorrow) + KeptFrom(forecasts, n, today, tomorrow)
    decreases |forecasts| - n
  {
    if n < |forecasts| {
      KeptPrefix(forecasts, n + 1, today, tomorrow);
      assert forecasts[..n + 1][..n] == forecasts[..n];
    } else {
      assert forecasts[..n] == forecasts;
    }
  }

  /** All harvested locations' entities, one list after the other. */
  function PrepareSchema(sources: seq<Harvested>, stations: map<string, Location>, clock: Clock,
                         latest: bool, today: string, tomorrow: string): (r: Result<seq<WeatherForecast>, Crash>)
    ensures r.Success? <==>
      forall k :: 0 <= k < |sources| ==> SchemaOne(sources[k], stations, clock, latest, today, tomorrow).Success?
    ensures r.Success? ==> forall e :: e in r.value <==>
      exists k :: 0 <= k < |sources| && e in SchemaOne(sources[k], stations, clock, latest, today, tomorrow).value
    ensures r.Success? ==> r.value == Flatten(Results.Values(sources, SchemaStep(stations, clock, latest, today, tomorrow)))
  {
    Results.ConcatMap(sources, SchemaStep(stations, clock, latest, today, tomorrow))
  }

  function SchemaStep(stations: map<string, Location>, clock: Clock, latest: bool, today: string, tomorrow: string)
    : Harvested -> Result<seq<WeatherForecast>, Crash>
  {
    source => SchemaOne(source, stations, clock, latest, today, tomorrow)
  }

  // ---------------------------------------------------------------------------------------
  // setup_stations
  // ---------------------------------------------------------------------------------------

  /** An entry of IPMA's `locations.json`. */
  datatype IpmaLocation = IpmaLocation(globalIdLocal: int, local: string)

  /** `url_observation.format(code)`. */
  function ObservationUrl(code: string): string {
    ObservationUrlPrefix + code + ".json"
  }

  /** Every location with its record: `str(globalIdLocal)` as code and postal code, the
      sanitized name, the forecast URL. */
  function Records(content: seq<IpmaLocation>): (r: seq<(string, Location)>)
    ensures |r| == |content|
    ensures forall k :: 0 <= k < |r| ==>
      r[k].0 == Text.IntToString(content[k].globalIdLocal) &&
      r[k].1 == Location(r[k].0, Text.Sanitize(content[k].local), ObservationUrl(r[k].0))
  {
    seq(|content|, k requires 0 <= k < |content| =>
      var code := Text.IntToString(content[k].globalIdLocal);
      (code, Location(code, Text.Sanitize(content[k].local), ObservationUrl(code))))
  }

  /** `setup_stations`: download the location list (fatal when it fails), keep the admitted
      locations, with the include-count check. */
  method SetupStations(download: Selection.Reply<seq<IpmaLocation>>, limits: Selection.Limits)
    returns (r: Result<map<string, Location>, Exit>)
    ensures r.Failure? ==> r.error == Exit(1)
    ensures r.Failure? <==>
      (Selection.Download(download).Failure? ||
       (limits.included.Some? &&
        |Selection.Kept(Records(Selection.Download(download).value), limits)| != |limits.included.value|))
    ensures r.Success? ==> r.value == Selection.Kept(Records(Selection.Download(download).value), limits)
  {
    var content := Selection.Download(download);
    if content.Failure? {
      return Failure(content.error);
    }
    r := Selection.SelectStations(Records(content.value), limits);
  }

  /** A selected location is admitted, and its record is keyed by the decimal rendering of its
      IPMA id, which reads back as that id, with a sanitized name. */
  lemma SelectedRecords(content: seq<IpmaLocation>, limits: Selection.Limits, code: string)
    requires code in Selection.Kept(Records(content), limits)
    ensures Selection.Admitted(code, limits)
    ensures exists k :: 0 <= k < |content| && Text.ParseInt(code) == Some(content[k].globalIdLocal) &&
                        Selection.Kept(Records(content), limits)[code] ==
                          Location(code, Text.Sanitize(content[k].local), ObservationUrl(code))
    ensures Text.Clean(Selection.Kept(Records(content), limits)[code].addressLocality)
  {
    var entries := Records(content);
    Selection.KeptKeys(entries, limits, code);
    Selection.KeptFrom(entries, limits);
    var k :| 0 <= k < |entries| && entries[k] == (code, Selection.Kept(entries, limits)[code]);
    Text.IntToStringRoundTrip(content[k].globalIdLocal);
  }
}
