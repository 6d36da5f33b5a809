/** The AEMET OpenData forecast collector (`harvest/spain/run.py`): eight WeatherForecast
    entities per municipality, four six-hour windows for each of today and tomorrow. */
module SpainRun {
  import opened Wrappers
  import opened JsonValue
  import opened Time
  import Text
  import Compass
  import Selection = Registry
  import Results
  import Collections
  import opened Forecast
  import opened SpanishRegistry

  const IdPrefix := "Spain-WeatherForecast-"
  const SourceUrl := "http://www.aemet.es"
  const ApiUrlPrefix := "https://opendata.aemet.es/opendata/api/prediccion/especifica/municipio/diaria/"

  // ---------------------------------------------------------------------------------------
  // decode_weather_type: AEMET's numeric sky codes
  // ---------------------------------------------------------------------------------------

  /** The code table. */
  function CodeTable(item: string): Option<string> {
    match item
    case "11" => Some("sunnyDay")
    case "11n" => Some("clearNight")
    case "12" => Some("slightlyCloudy")
    case "13" => Some("partlyCloudy")
    case "14" => Some("cloudy")
    case "15" => Some("veryCloudy")
    case "16" => Some("overcast")
    case "17" => Some("highClouds")
    case "23" => Some("partlyCloudy,lightRain")
    case "24" => Some("cloudy,lightRain")
    case "25" => Some("veryCloudy, lightRain")
    case "26" => Some("overcast, lightRain")
    case "33" => Some("partlyCloudy,snow")
    case "34" => Some("cloudy, snow")
    case "35" => Some("veryCloudy, snow")
    case "36" => Some("overcast, snow")
    case "43" => Some("partlyCloudy,drizzle")
    case "44" => Some("cloudy, drizzle")
    case "45" => Some("veryCloudy, drizzle")
    case "46" => Some("overcast, drizzle")
    case "51" => Some("partlyCloudy, thunder")
    case "52" => Some("cloudy, thunder")
    case "53" => Some("veryCloudy,thunder")
    case "54" => Some("overcast, thunder")
    case "61" => Some("partlyCloudy, thunder, lightRainShower")
    case "62" => Some("cloudy, thunder, lightRainShower")
    case "63" => Some("veryCloudy, thunder, lightRainShower")
    case "64" => Some("overcast, thunder, lightRainShower")
    case "71" => Some("partlyCloudy, lightSnow")
    case "72" => Some("cloudy, lightSnow")
    case "73" => Some("veryCloudy, lightSnow")
    case "74" => Some("overcast, lightSnow")
    case _ => None
  }

  /** The key looked up and the suffix appended: a code ending in 'n' is cut before its first
      'n' (`item.split('n')[0]`) and gets ", night". */
  function CodeSplit(item: string): (string, string) {
    if Text.EndsWith(item, "n") then
      Text.EndsWithFinds(item, "n");
      (item[..Text.Find(item, "n")], ", night")
    else (item, "")
  }

  function Decoded(key: string, trailing: string): Option<string> {
    match CodeTable(key)
    case None => None
    case Some(out) => if out != "" then Some(out + trailing) else None
  }

  function DecodeWeatherType(item: Option<string>): (r: Option<string>)
    ensures item.None? ==> r.None?
    ensures item == Some("11") ==> r == Some("sunnyDay")
    ensures item == Some("11n") ==> r == Some("cleanNight")
  {
    match item
    case None => None
    case Some(code) =>
      if code == "11" then Some("sunnyDay")
      else if code == "11n" then Some("cleanNight")
      else
        var (key, trailing) := CodeSplit(code);
        Decoded(key, trailing)
  }

  /** The key of a night code holds no 'n'. */
  lemma NightKeyHasNoN(item: string)
    requires Text.EndsWith(item, "n")
    ensures forall j :: !Text.OccursAt(CodeSplit(item).0, "n", j)
  {
    Text.EndsWithFinds(item, "n");
    var i := Text.Find(item, "n");
    assert item[..i] == item[0..i];
    Text.PieceBeforeFirstAvoids(item, "n", 0, i);
  }

  /** The early return for '11n' shadows the table: its 'clearNight' entry is never looked up,
      so "clearNight" never comes out. */
  lemma ClearNightCodeUnreachable(item: Option<string>)
    ensures item.Some? && item.value != "11" && item.value != "11n" ==> CodeSplit(item.value).0 != "11n"
    ensures DecodeWeatherType(item) != Some("clearNight")
  {
    if item.Some? && item.value != "11" && item.value != "11n" {
      var split := CodeSplit(item.value);
      KeyIsNotClearNightCode(item.value);
      DecodedNeverClearNight(split.0, split.1);
    }
  }

  /** Only "11n" itself is looked up under the key "11n". */
  lemma {:induction false} KeyIsNotClearNightCode(item: string)
    requires item != "11n"
    ensures CodeSplit(item).0 != "11n"
    ensures CodeSplit(item).1 == "" || CodeSplit(item).1 == ", night"
  {
    if Text.EndsWith(item, "n") {
      NightKeyHasNoN(item);
      assert Text.OccursAt("11n", "n", 2);
    }
  }

  /** The table's 'clearNight' entry is the only way to "clearNight", and its key is "11n". */
  lemma {:induction false} DecodedNeverClearNight(key: string, trailing: string)
    requires key != "11n" && (trailing == "" || trailing == ", night")
    ensures Decoded(key, trailing) != Some("clearNight")
  {
    ClearNightOnlyAt(key);
    DecodedAppends(key, trailing);
    if Decoded(key, trailing).Some? {
      var out := CodeTable(key).value;
      if trailing == "" {
        assert out + trailing == out;
      } else {
        assert (out + trailing)[|out + trailing| - 7..] == ", night";
        assert "clearNight"[3..] == "arNight";
      }
    }
  }

  /** A decoded value is the table entry followed by the suffix. */
  lemma DecodedAppends(key: string, trailing: string)
    ensures Decoded(key, trailing).Some? ==>
      CodeTable(key).Some? && Decoded(key, trailing).value == CodeTable(key).value + trailing
  {
  }

  lemma ClearNightOnlyAt(key: string)
    ensures CodeTable(key) == Some("clearNight") ==> key == "11n"
  {
  }

  /** A night code decodes as the code before its first 'n' followed by ", night". */
  lemma {:induction false} NightCodeIsDaytimePlusSuffix(item: string)
    requires Text.EndsWith(item, "n") && item != "11n"
    ensures var day := CodeSplit(item).0;
      DecodeWeatherType(Some(item)) ==
        match DecodeWeatherType(Some(day)) case None => None case Some(t) => Some(t + ", night")
  {
    var day := CodeSplit(item).0;
    NightKeyHasNoN(item);
    assert Text.OccursAt("11n", "n", 2);
    Text.SuffixOccurs(day, "n");
    assert "11"[1..] != "n";
    assert CodeSplit(day) == (day, "");
    assert DecodeWeatherType(Some(item)) == Decoded(day, ", night");
    if day == "11" {
      assert DecodeWeatherType(Some(day)) == Some("sunnyDay");
    } else {
      assert DecodeWeatherType(Some(day)) == Decoded(day, "");
      match CodeTable(day)
      case None =>
      case Some(out) =>
        assert out + "" == out;
    }
  }

  // ---------------------------------------------------------------------------------------
  // The collected forecast
  // ---------------------------------------------------------------------------------------

  /** A daily series: the day's extremes and the hourly `dato` values. */
  datatype Series = Series(maxima: Json, minima: Json, dato: seq<Json>)

  datatype Wind = Wind(direccion: string, velocidad: Json)

  /** One element of `prediccion.dia`; the lists are indexed by period (`dato`) or by range
      (the others, whose entries 3..6 are the six-hour ranges). */
  datatype AemetDay = AemetDay(
    fecha: string, sensTermica: Series, temperatura: Series, humedadRelativa: Series,
    probPrecipitacion: seq<Json>, estadoCielo: seq<Option<string>>, viento: seq<Wind>)

  /** What `collect_one` returns for a municipality. */
  datatype Collected = Collected(station: string, issued: string, retrieved: string, today: AemetDay, tomorrow: AemetDay)

  /** What `setup_stations` keeps for a municipality. */
  datatype RunStation = RunStation(postalCode: string, addressLocality: string, url: string)

  /** `isoformat().replace('+00:00', 'Z')` of the naive value converted to UTC. */
  function Iso(clock: Clock, t: LocalTime): string {
    Text.Replace(clock.utc(HostLocal, t), "+00:00", "Z")
  }

  /** A UTC rendering that ends in '+00:00' after a plain date-time gets the 'Z' suffix. */
  lemma IsoZulu(clock: Clock, t: LocalTime, dateTime: string)
    requires clock.utc(HostLocal, t) == dateTime + "+00:00" && '+' !in dateTime
    ensures Iso(clock, t) == dateTime + "Z"
  {
    Text.ReplaceAtEnd(dateTime, "+00:00", "Z");
  }

  /** The two day names and the periods 0..3, in loop order. */
  const Windows: seq<(string, nat)> :=
    [("today", 0), ("today", 1), ("today", 2), ("today", 3),
     ("tomorrow", 0), ("tomorrow", 1), ("tomorrow", 2), ("tomorrow", 3)]

  function DayOf(source: Collected, name: string): AemetDay {
    if name == "today" then source.today else source.tomorrow
  }

  /** The entity id of period p of the named day. */
  function ForecastId(source: Collected, clock: Clock, latest: bool, name: string, from: LocalTime, to: LocalTime): string {
    if latest then
      IdPrefix + source.station + "_" + name + "_" + clock.short(HostLocal, from) + "_" + clock.short(HostLocal, to)
    else
      IdPrefix + source.station + "_" + Iso(clock, from) + "_" + Iso(clock, to)
  }

  /** The body of the period loop: the station lookup, then the readings in the order the
      script takes them: the six day extremes, then the period's readings. The first list that
      is too short raises IndexError; `float()` of a null reading raises TypeError. */
  function Entity(source: Collected, stations: map<string, RunStation>, clock: Clock, latest: bool,
                  w: (string, nat)): Result<WeatherForecast, Crash>
  {
    var (name, p) := w;
    var d := DayOf(source, name);
    var from := LocalTime(d.fecha, 6 * p);
    var to := LocalTime(d.fecha, 6 * p + 6);
    if source.station !in stations then Failure(KeyError(source.station))
    else if Float(d.sensTermica.maxima).Failure? || Float(d.temperatura.maxima).Failure? ||
            Float(d.humedadRelativa.maxima).Failure? || Float(d.sensTermica.minima).Failure? ||
            Float(d.temperatura.minima).Failure? || Float(d.humedadRelativa.minima).Failure?
    then Failure(TypeError)
    else if p >= |d.sensTermica.dato| then Failure(IndexError(p))
    else if Float(d.sensTermica.dato[p]).Failure? then Failure(TypeError)
    else if p + 3 >= |d.probPrecipitacion| then Failure(IndexError(p + 3))
    else if Float(d.probPrecipitacion[p + 3]).Failure? then Failure(TypeError)
    else if p >= |d.humedadRelativa.dato| then Failure(IndexError(p))
    else if Float(d.humedadRelativa.dato[p]).Failure? then Failure(TypeError)
    else if p >= |d.temperatura.dato| then Failure(IndexError(p))
    else if Float(d.temperatura.dato[p]).Failure? then Failure(TypeError)
    else if p + 3 >= |d.estadoCielo| then Failure(IndexError(p + 3))
    else if p + 3 >= |d.viento| then Failure(IndexError(p + 3))
    else if Float(d.viento[p + 3].velocidad).Failure? then Failure(TypeError)
    else
      Success(WeatherForecast(
        id := ForecastId(source, clock, latest, name, from, to),
        addressCountry := "ES",
        addressLocality := stations[source.station].addressLocality,
        postalCode := stations[source.station].postalCode,
        dateIssued := source.issued,
        dateRetrieved := source.retrieved,
        dataProvider := DataProvider,
        source := SourceUrl,
        dayMaximum := Extremes(Some(Float(d.sensTermica.maxima).value), Some(Float(d.temperatura.maxima).value),
                               Some(Float(d.humedadRelativa.maxima).value)),
        dayMinimum := Extremes(Some(Float(d.sensTermica.minima).value), Some(Float(d.temperatura.minima).value),
                               Some(Float(d.humedadRelativa.minima).value)),
        feelsLikeTemperature := Some(Float(d.sensTermica.dato[p]).value),
        precipitationProbability := Some(Float(d.probPrecipitacion[p + 3]).value),
        relativeHumidity := Some(Float(d.humedadRelativa.dato[p]).value),
        temperature := Some(Float(d.temperatura.dato[p]).value),
        validFrom := Iso(clock, from),
        validTo := Iso(clock, to),
        validity := Validity(Iso(clock, from), Iso(clock, to)),
        weatherType := DecodeWeatherType(d.estadoCielo[p + 3]),
        windDirection := Compass.DecodeSpanish(d.viento[p + 3].direccion),
        windSpeed := Some(Float(d.viento[p + 3].velocidad).value)))
  }

  function EntityStep(source: Collected, stations: map<string, RunStation>, clock: Clock, latest: bool)
    : ((string, nat)) -> Result<WeatherForecast, Crash>
  {
    w => Entity(source, stations, clock, latest, w)
  }

  /** What `prepare_schema_one` returns for one collected municipality. */
  function SchemaOne(source: Collected, stations: map<string, RunStation>, clock: Clock, latest: bool)
    : Result<seq<WeatherForecast>, Crash>
  {
    Results.MapAll(Windows, EntityStep(source, stations, clock, latest))
  }

  /** None of the day's six extremes is null. */
  predicate ExtremesRead(d: AemetDay) {
    d.sensTermica.maxima != JNull && d.temperatura.maxima != JNull && d.humedadRelativa.maxima != JNull &&
    d.sensTermica.minima != JNull && d.temperatura.minima != JNull && d.humedadRelativa.minima != JNull
  }

  /** Period p of a day can be read: its extremes are not null, every list holds the entry
      the period reads, and no reading passed to `float()` is null. */
  predicate PeriodReadable(d: AemetDay, p: nat) {
    ExtremesRead(d) &&
    p < |d.sensTermica.dato| && d.sensTermica.dato[p] != JNull &&
    p + 3 < |d.probPrecipitacion| && d.probPrecipitacion[p + 3] != JNull &&
    p < |d.humedadRelativa.dato| && d.humedadRelativa.dato[p] != JNull &&
    p < |d.temperatura.dato| && d.temperatura.dato[p] != JNull &&
    p + 3 < |d.estadoCielo| && p + 3 < |d.viento| && d.viento[p + 3].velocidad != JNull
  }

  /** A day is complete when all four periods can be read. */
  predicate Complete(d: AemetDay) {
    forall p: nat :: p < 4 ==> PeriodReadable(d, p)
  }

  /** A window's entity is built exactly when the station is known and the period can be
      read; a null extreme is a TypeError whatever the period. */
  lemma EntitySucceeds(source: Collected, stations: map<string, RunStation>, clock: Clock, latest: bool, name: string, p: nat)
    ensures Entity(source, stations, clock, latest, (name, p)).Success? <==>
      source.station in stations && PeriodReadable(DayOf(source, name), p)
    ensures source.station in stations && !ExtremesRead(DayOf(source, name)) ==>
      Entity(source, stations, clock, latest, (name, p)) == Failure(TypeError)
  {
  }

  /** `prepare_schema_one` succeeds exactly when the station is known and both days are
      complete; an unknown station fails on the first entity. */
  lemma SchemaOneSucceeds(source: Collected, stations: map<string, RunStation>, clock: Clock, latest: bool)
    ensures SchemaOne(source, stations, clock, latest).Success? <==>
      source.station in stations && Complete(source.today) && Complete(source.tomorrow)
    ensures source.station !in stations ==>
      SchemaOne(source, stations, clock, latest) == Failure(KeyError(source.station))
  {
    if source.station in stations && Complete(source.today) && Complete(source.tomorrow) {
      SchemaOneComplete(source, stations, clock, latest);
    }
    if SchemaOne(source, stations, clock, latest).Success? {
      SchemaOneNeedsComplete(source, stations, clock, latest);
    }
    if source.station !in stations {
      SchemaOneUnknownStation(source, stations, clock, latest);
    }
  }

  /** Every window names a day and a period below 4. */
  lemma WindowsInRange()
    ensures forall k :: 0 <= k < |Windows| ==>
      Windows[k].1 < 4 && (Windows[k].0 == "today" || Windows[k].0 == "tomorrow")
  {
  }

  lemma SchemaOneComplete(source: Collected, stations: map<string, RunStation>, clock: Clock, latest: bool)
    requires source.station in stations && Complete(source.today) && Complete(source.tomorrow)
    ensures SchemaOne(source, stations, clock, latest).Success?
  {
    var f := EntityStep(source, stations, clock, latest);
    WindowsInRange();
    forall k | 0 <= k < |Windows| ensures f(Windows[k]).Success? {
      EntitySucceeds(source, stations, clock, latest, Windows[k].0, Windows[k].1);
    }
    Results.MapAllSuccess(Windows, f);
  }

  lemma SchemaOneNeedsComplete(source: Collected, stations: map<string, RunStation>, clock: Clock, latest: bool)
    ensures SchemaOne(source, stations, clock, latest).Success? ==>
      source.station in stations && Complete(source.today) && Complete(source.tomorrow)
  {
    if SchemaOne(source, stations, clock, latest).Success? {
      forall p: nat | p < 4 ensures PeriodReadable(source.today, p) && PeriodReadable(source.tomorrow, p) {
        PeriodRead(source, stations, clock, latest, 0, p);
        PeriodRead(source, stations, clock, latest, 1, p);
      }
      PeriodRead(source, stations, clock, latest, 0, 0);
    }
  }

  /** A successful pass read period p of day d. */
  lemma PeriodRead(source: Collected, stations: map<string, RunStation>, clock: Clock, latest: bool, dayIndex: nat, p: nat)
    requires dayIndex < 2 && p < 4
    ensures SchemaOne(source, stations, clock, latest).Success? ==>
      source.station in stations && PeriodReadable(if dayIndex == 0 then source.today else source.tomorrow, p)
  {
    if SchemaOne(source, stations, clock, latest).Success? {
      var name := if dayIndex == 0 then "today" else "tomorrow";
      WindowAt(dayIndex, p);
      Results.MapAllAt(Windows, EntityStep(source, stations, clock, latest), 4 * dayIndex + p);
      EntitySucceeds(source, stations, clock, latest, name, p);
    }
  }

  lemma SchemaOneUnknownStation(source: Collected, stations: map<string, RunStation>, clock: Clock, latest: bool)
    requires source.station !in stations
    ensures SchemaOne(source, stations, clock, latest) == Failure(KeyError(source.station))
  {
    var f := EntityStep(source, stations, clock, latest);
    assert f(Windows[0]) == Failure(KeyError(source.station));
    assert Windows == [] + [Windows[0]] + Windows[1..];
    Results.MapAllSnoc([], Windows[0], f);
    Results.MapAllFailurePrefix([Windows[0]], Windows[1..], f);
    assert [Windows[0]] + Windows[1..] == Windows;
  }

  /** The entity of period p of a complete day covers hours [6p, 6p + 6) of that day, carries
      the day's extremes, and reads the hourly series at p and the range lists at p + 3. */
  lemma EntityReadings(source: Collected, stations: map<string, RunStation>, clock: Clock, latest: bool, name: string, p: nat)
    requires p < 4 && source.station in stations && Complete(DayOf(source, name))
    ensures Entity(source, stations, clock, latest, (name, p)).Success?
    ensures var e := Entity(source, stations, clock, latest, (name, p)).value;
      var d := DayOf(source, name);
      var from := Iso(clock, LocalTime(d.fecha, 6 * p));
      var to := Iso(clock, LocalTime(d.fecha, 6 * p + 6));
      e.validFrom == from && e.validTo == to && e.validity == Validity(from, to) &&
      e.dayMaximum == Extremes(Some(d.sensTermica.maxima), Some(d.temperatura.maxima), Some(d.humedadRelativa.maxima)) &&
      e.dayMinimum == Extremes(Some(d.sensTermica.minima), Some(d.temperatura.minima), Some(d.humedadRelativa.minima)) &&
      e.feelsLikeTemperature == Some(d.sensTermica.dato[p]) &&
      e.relativeHumidity == Some(d.humedadRelativa.dato[p]) &&
      e.temperature == Some(d.temperatura.dato[p]) &&
      e.precipitationProbability == Some(d.probPrecipitacion[p + 3]) &&
      e.weatherType == DecodeWeatherType(d.estadoCielo[p + 3]) &&
      e.windDirection == Compass.DecodeSpanish(d.viento[p + 3].direccion) &&
      e.windSpeed == Some(d.viento[p + 3].velocidad)
  {
    assert PeriodReadable(DayOf(source, name), p);
  }

  /** Entity 4d + p of a successful pass is the entity of period p of day d. */
  lemma SchemaOneIndexMapping(source: Collected, stations: map<string, RunStation>, clock: Clock, latest: bool,
                              dayIndex: nat, p: nat)
    requires dayIndex < 2 && p < 4
    ensures SchemaOne(source, stations, clock, latest).Success? ==>
      |SchemaOne(source, stations, clock, latest).value| == 8 &&
      Entity(source, stations, clock, latest, (if dayIndex == 0 then "today" else "tomorrow", p)) ==
        Success(SchemaOne(source, stations, clock, latest).value[4 * dayIndex + p])
  {
    if SchemaOne(source, stations, clock, latest).Success? {
      var f := EntityStep(source, stations, clock, latest);
      WindowAt(dayIndex, p);
      Results.MapAllAt(Windows, f, 4 * dayIndex + p);
    }
  }

  lemma WindowAt(dayIndex: nat, p: nat)
    requires dayIndex < 2 && p < 4
    ensures 4 * dayIndex + p < |Windows|
    ensures Windows[4 * dayIndex + p] == (if dayIndex == 0 then "today" else "tomorrow", p)
  {
  }

  /** With `latest`, an entity of today and one of tomorrow never share an id: the day name
      follows the station at the same position. */
  lemma {:induction false} LatestIdsKeepDaysApart(source: Collected, clock: Clock, p: nat, q: nat,
                                                  a1: LocalTime, a2: LocalTime, b1: LocalTime, b2: LocalTime)
    ensures ForecastId(source, clock, true, "today", a1, a2) != ForecastId(source, clock, true, "tomorrow", b1, b2)
  {
    var head := IdPrefix + source.station + "_";
    var x := ForecastId(source, clock, true, "today", a1, a2);
    var y := ForecastId(source, clock, true, "tomorrow", b1, b2);
    assert x == head + ("today" + "_" + clock.short(HostLocal, a1) + "_" + clock.short(HostLocal, a2));
    assert y == head + ("tomorrow" + "_" + clock.short(HostLocal, b1) + "_" + clock.short(HostLocal, b2));
    assert x[|head| + 2] == 'd';
    assert y[|head| + 2] == 'm';
  }

  /** `prepare_schema_one`: the nested loops over the day names and the periods. */
  method PrepareSchemaOne(source: Collected, stations: map<string, RunStation>, clock: Clock, latest: bool)
    returns (r: Result<seq<WeatherForecast>, Crash>)
    ensures r == SchemaOne(source, stations, clock, latest)
  {
    r := DayPeriodLoop(EntityStep(source, stations, clock, latest));
  }

  /** The loops `for day in ['today', 'tomorrow']: for period in [0, 1, 2, 3]`, appending the
      entity `build` makes of each; the first exception aborts. */
  method DayPeriodLoop<E>(build: ((string, nat)) -> Result<E, Crash>) returns (r: Result<seq<E>, Crash>)
    ensures r == Results.MapAll(Windows, build)
  {
    var result: seq<E> := [];
    var names := ["today", "tomorrow"];
    for n := 0 to 2
      invariant Results.MapAll(Windows[..4 * n], build) == Success(result)
    {
      for p := 0 to 4
        invariant Results.MapAll(Windows[..4 * n + p], build) == Success(result)
      {
        WindowStep(n, p);
        Results.MapAllSnoc(Windows[..4 * n + p], (names[n], p), build);
        var e := build((names[n], p));
        if e.Failure? {
          WindowFailureStays(4 * n + p, build);
          return Failure(e.error);
        }
        result := result + [e.value];
      }
    }
    assert Windows[..8] == Windows;
    r := Success(result);
  }

  /** Window 4n + p is period p of the n-th day name. */
  lemma WindowStep(n: nat, p: nat)
    requires n < 2 && p < 4
    ensures Windows[..4 * n + p + 1] == Windows[..4 * n + p] + [(["today", "tomorrow"][n], p)]
  {
    WindowAt(n, p);
  }

  /** Once a window fails, the later windows change nothing. */
  lemma WindowFailureStays<E>(k: nat, build: ((string, nat)) -> Result<E, Crash>)
    requires k < 8 && Results.MapAll(Windows[..k + 1], build).Failure?
    ensures Results.MapAll(Windows, build) == Results.MapAll(Windows[..k + 1], build)
  {
    assert Windows == Windows[..k + 1] + Windows[k + 1..];
    Results.MapAllFailurePrefix(Windows[..k + 1], Windows[k + 1..], build);
  }

  /** All collected municipalities' entities, one list after the other. */
  function PrepareSchema(sources: seq<Collected>, stations: map<string, RunStation>, clock: Clock, latest: bool)
    : (r: Result<seq<WeatherForecast>, Crash>)
    ensures r.Success? <==> forall k :: 0 <= k < |sources| ==> SchemaOne(sources[k], stations, clock, latest).Success?
    ensures r.Success? ==> forall e :: e in r.value <==>
      exists k :: 0 <= k < |sources| && e in SchemaOne(sources[k], stations, clock, latest).value
    ensures r.Success? ==> r.value == Collections.Flatten(Results.Values(sources, SchemaStep(stations, clock, latest)))
  {
    Results.ConcatMap(sources, SchemaStep(stations, clock, latest))
  }

  function SchemaStep(stations: map<string, RunStation>, clock: Clock, latest: bool)
    : Collected -> Result<seq<WeatherForecast>, Crash>
  {
    source => SchemaOne(source, stations, clock, latest)
  }

  // ---------------------------------------------------------------------------------------
  // setup_stations
  // ---------------------------------------------------------------------------------------

  /** `url_aemet.format(station)`. */
  function ApiUrl(code: string): (u: string)
    ensures |u| == |ApiUrlPrefix| + |code|
    ensures u[..|ApiUrlPrefix|] == ApiUrlPrefix && u[|ApiUrlPrefix|..] == code
  {
    ApiUrlPrefix + code
  }

  /** Every municipality of `stations.yml` with its record: the code, the name as written, the
      API URL. */
  function Records(municipalities: seq<(string, Municipality)>): (r: seq<(string, RunStation)>)
    ensures |r| == |municipalities|
    ensures forall k :: 0 <= k < |r| ==>
              r[k] == (municipalities[k].0, RunStation(municipalities[k].0, municipalities[k].1.name, ApiUrl(municipalities[k].0)))
  {
    seq(|municipalities|, k requires 0 <= k < |municipalities| =>
      (municipalities[k].0, RunStation(municipalities[k].0, municipalities[k].1.name, ApiUrl(municipalities[k].0))))
  }

  /** `setup_stations`: a missing `stations.yml` is fatal; otherwise the admitted municipalities,
      with the include-count check. */
  method SetupStations(file: Option<seq<(string, Municipality)>>, limits: Selection.Limits)
    returns (r: Result<map<string, RunStation>, Exit>)
    ensures file.None? ==> r == Failure(Exit(1))
    ensures r.Failure? ==> r.error == Exit(1)
    ensures file.Some? ==>
      (r.Failure? <==> limits.included.Some? && |Selection.Kept(Records(file.value), limits)| != |limits.included.value|)
    ensures r.Success? ==> file.Some? && r.value == Selection.Kept(Records(file.value), limits)
  {
    if file.None? {
      return Failure(Exit(1));
    }
    r := Selection.SelectStations(Records(file.value), limits);
  }

  /** A selected municipality is admitted and its record carries its own code, its name as the
      file writes it, and its own API URL. */
  lemma SelectedRecords(municipalities: seq<(string, Municipality)>, limits: Selection.Limits, code: string)
    requires code in Selection.Kept(Records(municipalities), limits)
    ensures Selection.Admitted(code, limits)
    ensures exists k :: 0 <= k < |municipalities| && municipalities[k].0 == code &&
                        Selection.Kept(Records(municipalities), limits)[code] ==
                          RunStation(code, municipalities[k].1.name, ApiUrl(code))
  {
    var entries := Records(municipalities);
    Selection.KeptKeys(entries, limits, code);
    Selection.KeptFrom(entries, limits);
    var k :| 0 <= k < |entries| && entries[k] == (code, Selection.Kept(entries, limits)[code]);
    assert municipalities[k].0 == code;
  }
}
