/** The AEMET XML forecast harvester (`harvest/spain/harvester.py`): one WeatherForecast per
    six-hour window of today and tomorrow for every selected municipality. */
module SpainHarvester {
  import opened Wrappers
  import opened JsonValue
  import opened Time
  import Text
  import Compass
  import Batching
  import Selection = Registry
  import Results
  import Gathering
  import Collections
  import opened Forecast
  import opened SpanishRegistry

  const IdPrefix := "Spain-WeatherForecast-"
  const SourceUrl := "http://www.aemet.es"

  // ---------------------------------------------------------------------------------------
  // decode_weather_type: AEMET's Spanish sky descriptions
  // ---------------------------------------------------------------------------------------

  /** The description table (keys lower-cased). */
  function SkyTable(param: string): Option<string> {
    match param
    case "despejado" => Some("sunnyDay")
    case "poco nuboso" => Some("slightlyCloudy")
    case "intervalos nubosos" => Some("partlyCloudy")
    case "nuboso" => Some("cloudy")
    case "muy nuboso" => Some("veryCloudy")
    case "cubierto" => Some("overcast")
    case "nubes altas" => Some("highClouds")
    case "intervalos nubosos con lluvia escasa" => Some("partlyCloudy,drizzle")
    case "nuboso con lluvia escasa" => Some("cloudy, drizzle")
    case "muy nuboso con lluvia escasa" => Some("veryCloudy, drizzle")
    case "cubierto con lluvia escasa" => Some("overcast, drizzle")
    case "intervalos nubosos con lluvia" => Some("partlyCloudy,lightRain")
    case "nuboso con lluvia" => Some("cloudy,lightRain")
    case "muy nuboso con lluvia" => Some("veryCloudy, lightRain")
    case "cubierto con lluvia" => Some("overcast, lightRain")
    case "intervalos nubosos con nieve escasa" => Some("partlyCloudy, lightSnow")
    case "nuboso con nieve escasa" => Some("cloudy, lightSnow")
    case "muy nuboso con nieve escasa" => Some("veryCloudy, lightSnow")
    case "cubierto con nieve escasa" => Some("overcast, lightSnow")
    case "intervalos nubosos con nieve" => Some("partlyCloudy,snow")
    case "nuboso con nieve" => Some("cloudy, snow")
    case "muy nuboso con nieve" => Some("veryCloudy, snow")
    case "cubierto con nieve" => Some("overcast, snow")
    case "intervalos nubosos con tormenta" => Some("partlyCloudy, thunder")
    case "nuboso con tormenta" => Some("cloudy, thunder")
    case "muy nuboso con tormenta" => Some("veryCloudy,thunder")
    case "cubierto con tormenta" => Some("overcast, thunder")
    case "intervalos nubosos con tormenta y lluvia escasa" => Some("partlyCloudy, thunder, lightRainShower")
    case "nuboso con tormenta y lluvia escasa" => Some("cloudy, thunder, lightRainShower")
    case "muy nuboso con tormenta y lluvia escasa" => Some("veryCloudy, thunder, lightRainShower")
    case "cubierto con tormenta y lluvia escasa" => Some("overcast, thunder, lightRainShower")
    case "despejado noche" => Some("clearNight")
    case _ => None
  }

  /** The key looked up and the suffix appended: a lower-cased description ending in "noche"
      is cut before its first "noche", stripped, and gets ", night". */
  function NightSplit(description: string): (string, string) {
    var param := Text.Lower(description);
    if Text.EndsWith(param, "noche") then
      Text.EndsWithFinds(param, "noche");
      (Text.Strip(param[..Text.Find(param, "noche")]), ", night")
    else (param, "")
  }

  /** The table entry for a key with the suffix appended; an unknown key or an empty entry
      gives None. */
  function Decoded(param: string, trailing: string): Option<string> {
    match SkyTable(param)
    case None => None
    case Some(out) => if out != "" then Some(out + trailing) else None
  }

  function DecodeWeatherType(weatherType: Option<string>): (r: Option<string>)
    ensures weatherType.None? ==> r.None?
    ensures r.Some? ==> SkyTable(NightSplit(weatherType.value).0).Some?
  {
    match weatherType
    case None => None
    case Some(description) =>
      var (param, trailing) := NightSplit(description);
      Decoded(param, trailing)
  }

  /** The night part of a description is gone from the key: it holds no "noche" and is
      already lower case. */
  lemma {:induction false} NightKeyAvoidsNoche(description: string)
    requires Text.EndsWith(Text.Lower(description), "noche")
    ensures forall j :: !Text.OccursAt(NightSplit(description).0, "noche", j)
    ensures Text.Lower(NightSplit(description).0) == NightSplit(description).0
  {
    var lo, hi := NightKeyIsSlice(description);
    var param := Text.Lower(description);
    Text.PieceBeforeFirstAvoids(param, "noche", lo, hi);
    Text.LowerOfLoweredSlice(description, lo, hi);
  }

  /** The key of a night description is a piece of the lower-cased description before its
      first "noche". */
  lemma NightKeyIsSlice(description: string) returns (lo: nat, hi: nat)
    requires Text.EndsWith(Text.Lower(description), "noche")
    ensures 0 <= Text.Find(Text.Lower(description), "noche") && lo <= hi <= Text.Find(Text.Lower(description), "noche")
    ensures NightSplit(description).0 == Text.Lower(description)[lo..hi]
  {
    var i := NightKeyCut(description);
    lo, hi := Text.StripPrefixIsSlice(Text.Lower(description), i);
  }

  /** A night description is cut at its first "noche" and stripped. */
  lemma NightKeyCut(description: string) returns (i: nat)
    requires Text.EndsWith(Text.Lower(description), "noche")
    ensures i == Text.Find(Text.Lower(description), "noche") && i <= |Text.Lower(description)|
    ensures NightSplit(description).0 == Text.Strip(Text.Lower(description)[..i])
  {
    Text.EndsWithFinds(Text.Lower(description), "noche");
    i := Text.Find(Text.Lower(description), "noche");
  }

  /** The table's 'despejado noche' entry is never looked up, so "clearNight" never comes out
      of the table. */
  lemma {:induction false} ClearNightUnreachable(description: string)
    ensures NightSplit(description).0 != "despejado noche"
    ensures SkyTable(NightSplit(description).0) != Some("clearNight")
  {
    assert Text.EndsWith("despejado noche", "noche");
    assert Text.OccursAt("despejado noche", "noche", 10);
    if Text.EndsWith(Text.Lower(description), "noche") {
      NightKeyAvoidsNoche(description);
    }
    ClearNightOnlyAt(NightSplit(description).0);
  }

  lemma ClearNightOnlyAt(param: string)
    ensures SkyTable(param) == Some("clearNight") ==> param == "despejado noche"
  {
  }

  /** A night description decodes as its daytime part followed by ", night". */
  lemma {:induction false} NightIsDaytimePlusSuffix(description: string)
    requires Text.EndsWith(Text.Lower(description), "noche")
    ensures var day := NightSplit(description).0;
      DecodeWeatherType(Some(description)) ==
        match DecodeWeatherType(Some(day)) case None => None case Some(t) => Some(t + ", night")
  {
    var day := NightSplit(description).0;
    NightKeyAvoidsNoche(description);
    Text.SuffixOccurs(day, "noche");
    assert NightSplit(day) == (day, "");
    assert DecodeWeatherType(Some(day)) == Decoded(day, "");
    assert DecodeWeatherType(Some(description)) == Decoded(day, ", night");
    match SkyTable(day)
    case None =>
    case Some(out) =>
      assert out + "" == out;
  }

  // ---------------------------------------------------------------------------------------
  // The six-hour windows
  // ---------------------------------------------------------------------------------------

  /** The periods `prepare_schema_one` walks for each day. */
  const Periods: seq<string> := ["06", "12", "18", "24"]

  /** The if-chain on `period`: first and last local hour, and the key of the readings AEMET
      gives per six-hour range (`ft_period`). */
  function Window(period: string): Option<(int, int, string)> {
    match period
    case "06" => Some((0, 6, "00-06"))
    case "12" => Some((6, 12, "06-12"))
    case "18" => Some((12, 18, "12-18"))
    case "24" => Some((18, 24, "18-24"))
    case _ => None
  }

  /** Two-digit rendering of an hour. */
  function Pad2(n: nat): string
    requires n < 100
  {
    [Text.DigitChar(n / 10), Text.DigitChar(n % 10)]
  }

  /** Period p covers the local hours [6p, 6p + 6): its label is the end hour and its range key
      is "start-end", so the four windows tile the day from 00 to 24. */
  lemma {:induction false} WindowsTileTheDay(p: nat)
    requires p < 4
    ensures Window(Periods[p]) == Some((6 * p, 6 * p + 6, Pad2(6 * p) + "-" + Pad2(6 * p + 6)))
    ensures Periods[p] == Pad2(6 * p + 6)
  {
    if p == 0 {
      assert Pad2(0) == "00" && Pad2(6) == "06";
      assert Periods[0] == "06" && Window("06") == Some((0, 6, "00-06"));
      assert "00-06" == "00" + "-" + "06";
    } else if p == 1 {
      assert Pad2(6) == "06" && Pad2(12) == "12";
      assert Periods[1] == "12" && Window("12") == Some((6, 12, "06-12"));
      assert "06-12" == "06" + "-" + "12";
    } else if p == 2 {
      assert Pad2(12) == "12" && Pad2(18) == "18";
      assert Periods[2] == "18" && Window("18") == Some((12, 18, "12-18"));
      assert "12-18" == "12" + "-" + "18";
    } else {
      assert Pad2(18) == "18" && Pad2(24) == "24";
      assert Periods[3] == "24" && Window("24") == Some((18, 24, "18-24"));
      assert "18-24" == "18" + "-" + "24";
    }
  }

  // ---------------------------------------------------------------------------------------
  // prepare_schema_one
  // ---------------------------------------------------------------------------------------

  /** What `setup_stations` keeps for a municipality. */
  datatype StationRecord = StationRecord(postalCode: string, addressLocality: string, timezone: string, url: string)

  /** One day of an XML forecast as `harvest_one` stores it: under each tag the 'maxima' and
      'minima', under each period or range key the readings of that window. */
  type Day = map<string, map<string, Option<string>>>

  /** What `harvest_one` returns for a municipality. */
  datatype Harvested = Harvested(id: string, issued: string, retrieved: string, forecasts: seq<(string, Day)>)

  /** `ft[outer][inner]`, with the KeyError of the first missing key. */
  function Read(day: Day, key: (string, string)): Result<Option<string>, Crash> {
    if key.0 !in day then Failure(KeyError(key.0))
    else if key.1 !in day[key.0] then Failure(KeyError(key.1))
    else Success(day[key.0][key.1])
  }

  function ReadStep(day: Day): ((string, string)) -> Result<Option<string>, Crash> {
    key => Read(day, key)
  }

  /** The readings an entity takes, in the order the script reads them. */
  function Reads(period: string, range: string): seq<(string, string)> {
    [("sens_termica", "maxima"), ("temperatura", "maxima"), ("humedad_relativa", "maxima"),
     ("sens_termica", "minima"), ("temperatura", "minima"), ("humedad_relativa", "minima"),
     (period, "sens_termica"), (range, "prob_precipitacion"), (period, "humedad_relativa"),
     (period, "temperatura"), (range, "estado_cielo"), (range, "direccion"), (range, "velocidad")]
  }

  function AsJson(v: Option<string>): Option<Json> {
    match v case None => None case Some(s) => Some(JStr(s))
  }

  /** Everything `prepare_schema_one` fixes before its loop. */
  datatype Context = Context(
    station: string, record: StationRecord, zone: Zone, issued: string, retrieved: string,
    clock: Clock, latest: bool, today: string, tomorrow: string)

  /** The entity id: with `latest`, `_today_` or `_tomorrow_` and the short local times are
      appended after the station (once for each of today and tomorrow the date equals);
      otherwise the station and the local ISO times. */
  function ForecastId(ctx: Context, date: string, from: LocalTime, to: LocalTime): string {
    var fromShort := ctx.clock.short(ctx.zone, from);
    var toShort := ctx.clock.short(ctx.zone, to);
    if ctx.latest then
      IdPrefix
      + (if date == ctx.today then ctx.station + "_today_" + fromShort + "_" + toShort else "")
      + (if date == ctx.tomorrow then ctx.station + "_tomorrow_" + fromShort + "_" + toShort else "")
    else
      IdPrefix + ctx.station + "_" + ctx.clock.iso(ctx.zone, from) + "_" + ctx.clock.iso(ctx.zone, to)
  }

  /** The body of the period loop for (date, day, period). */
  function Entity(ctx: Context, w: (string, Day, string)): Result<WeatherForecast, Crash> {
    var (date, day, period) := w;
    match Window(period)
    case None => Failure(AttributeError)
    case Some((fromHour, toHour, range)) =>
      var from := LocalTime(date, fromHour);
      var to := LocalTime(date, toHour);
      var fromIso := ctx.clock.iso(ctx.zone, from);
      var toIso := ctx.clock.iso(ctx.zone, to);
      var keys := Reads(period, range);
      Results.MapAllSuccess(keys, ReadStep(day));
      match Results.MapAll(keys, ReadStep(day))
      case Failure(e) => Failure(e)
      case Success(v) =>
        Success(WeatherForecast(
          id := ForecastId(ctx, date, from, to),
          addressCountry := "ES",
          addressLocality := ctx.record.addressLocality,
          postalCode := ctx.record.postalCode,
          dateIssued := ctx.issued,
          dateRetrieved := ctx.retrieved,
          dataProvider := DataProvider,
          source := SourceUrl,
          dayMaximum := Extremes(AsJson(v[0]), AsJson(v[1]), AsJson(v[2])),
          dayMinimum := Extremes(AsJson(v[3]), AsJson(v[4]), AsJson(v[5])),
          feelsLikeTemperature := AsJson(v[6]),
          precipitationProbability := AsJson(v[7]),
          relativeHumidity := AsJson(v[8]),
          temperature := AsJson(v[9]),
          validFrom := ctx.clock.utc(ctx.zone, from),
          validTo := ctx.clock.utc(ctx.zone, to),
          validity := Validity(fromIso, toIso),
          weatherType := if v[10].Some? then DecodeWeatherType(v[10]) else None,
          windDirection := if v[11].Some? then Compass.DecodeSpanish(v[11].value) else None,
          windSpeed := AsJson(v[12])))
  }

  function EntityStep(ctx: Context): ((string, Day, string)) -> Result<WeatherForecast, Crash> {
    w => Entity(ctx, w)
  }

  function DayWindows(date: string, day: Day): seq<(string, Day, string)> {
    [(date, day, Periods[0]), (date, day, Periods[1]), (date, day, Periods[2]), (date, day, Periods[3])]
  }

  /** The forecast days dated today or tomorrow. */
  function Qualifying(forecasts: seq<(string, Day)>, today: string, tomorrow: string): seq<(string, Day)> {
    if forecasts == [] then []
    else
      var last := forecasts[|forecasts| - 1];
      Qualifying(forecasts[..|forecasts| - 1], today, tomorrow)
      + (if last.0 == today || last.0 == tomorrow then [last] else [])
  }

  /** The (date, day, period) triples the nested loops visit. */
  function Windows(forecasts: seq<(string, Day)>, today: string, tomorrow: string): seq<(string, Day, string)> {
    if forecasts == [] then []
    else
      var (date, day) := forecasts[|forecasts| - 1];
      Windows(forecasts[..|forecasts| - 1], today, tomorrow)
      + (if date == today || date == tomorrow then DayWindows(date, day) else [])
  }

  /** Only days dated today or tomorrow are kept, in order. */
  lemma {:induction false} QualifyingDates(forecasts: seq<(string, Day)>, today: string, tomorrow: string)
    ensures forall e :: e in Qualifying(forecasts, today, tomorrow) <==>
      e in forecasts && (e.0 == today || e.0 == tomorrow)
  {
    if forecasts != [] {
      var init := forecasts[..|forecasts| - 1];
      QualifyingDates(init, today, tomorrow);
      assert forecasts == init + [forecasts[|forecasts| - 1]];
    }
  }

  /** Four windows per kept day: entry 4k + p is period p of the k-th kept day. */
  lemma {:induction false} WindowsPerDay(forecasts: seq<(string, Day)>, today: string, tomorrow: string)
    ensures var q := Qualifying(forecasts, today, tomorrow);
      |Windows(forecasts, today, tomorrow)| == 4 * |q| &&
      forall k, p :: 0 <= k < |q| && 0 <= p < 4 ==>
        Windows(forecasts, today, tomorrow)[4 * k + p] == (q[k].0, q[k].1, Periods[p])
  {
    if forecasts != [] {
      var init := forecasts[..|forecasts| - 1];
      WindowsPerDay(init, today, tomorrow);
      var q := Qualifying(forecasts, today, tomorrow);
      var q0 := Qualifying(init, today, tomorrow);
      var w := Windows(forecasts, today, tomorrow);
      var w0 := Windows(init, today, tomorrow);
      forall k, p | 0 <= k < |q| && 0 <= p < 4 ensures w[4 * k + p] == (q[k].0, q[k].1, Periods[p]) {
        if k < |q0| {
          assert q[k] == q0[k];
          assert w[4 * k + p] == w0[4 * k + p];
        }
      }
    }
  }

  /** The time zone named by the registry: 'cet' is Europe/Madrid, 'wet' Atlantic/Canary;
      any other value leaves `tz_local` at None. */
  function ZoneOf(timezone: string): Option<Zone> {
    if timezone == "cet" then Some(EuropeMadrid)
    else if timezone == "wet" then Some(AtlanticCanary)
    else None
  }

  /** What `prepare_schema_one` returns for one harvested municipality. */
  function SchemaOne(source: Harvested, stations: map<string, StationRecord>, clock: Clock,
                     latest: bool, today: string, tomorrow: string): Result<seq<WeatherForecast>, Crash>
  {
    if source.id !in stations then Failure(KeyError(source.id))
    else
      match ZoneOf(stations[source.id].timezone)
      case None => Failure(AttributeError)
      case Some(zone) =>
        var ctx := Context(source.id, stations[source.id], zone,
                           clock.utc(zone, LocalTime(source.issued, 0)), source.retrieved,
                           clock, latest, today, tomorrow);
        Results.MapAll(Windows(source.forecasts, today, tomorrow), EntityStep(ctx))
  }

  /** Every entity is built for a kept day: four per day dated today or tomorrow, in order,
      with the window of its period. An unknown time zone fails before any entity. */
  lemma SchemaOneWindows(source: Harvested, stations: map<string, StationRecord>, clock: Clock,
                         latest: bool, today: string, tomorrow: string)
    requires source.id in stations
    ensures ZoneOf(stations[source.id].timezone).None? ==>
      SchemaOne(source, stations, clock, latest, today, tomorrow) == Failure(AttributeError)
    ensures var r := SchemaOne(source, stations, clock, latest, today, tomorrow);
      var q := Qualifying(source.forecasts, today, tomorrow);
      r.Success? ==>
        |r.value| == 4 * |q| &&
        forall k, p :: 0 <= k < |q| && 0 <= p < 4 ==>
          var zone := ZoneOf(stations[source.id].timezone).value;
          r.value[4 * k + p].validity ==
            Validity(clock.iso(zone, LocalTime(q[k].0, 6 * p)), clock.iso(zone, LocalTime(q[k].0, 6 * p + 6)))
  {
    var r := SchemaOne(source, stations, clock, latest, today, tomorrow);
    if r.Success? {
      var zone := ZoneOf(stations[source.id].timezone).value;
      var ctx := Context(source.id, stations[source.id], zone,
                         clock.utc(zone, LocalTime(source.issued, 0)), source.retrieved,
                         clock, latest, today, tomorrow);
      var ws := Windows(source.forecasts, today, tomorrow);
      var q := Qualifying(source.forecasts, today, tomorrow);
      WindowsPerDay(source.forecasts, today, tomorrow);
      Results.MapAllSuccess(ws, EntityStep(ctx));
      forall k, p | 0 <= k < |q| && 0 <= p < 4
        ensures r.value[4 * k + p].validity ==
          Validity(clock.iso(zone, LocalTime(q[k].0, 6 * p)), clock.iso(zone, LocalTime(q[k].0, 6 * p + 6)))
      {
        assert ws[4 * k + p] == (q[k].0, q[k].1, Periods[p]);
        assert Entity(ctx, ws[4 * k + p]) == Success(r.value[4 * k + p]);
        EntityValidity(ctx, q[k].0, q[k].1, p);
      }
    }
  }

  /** The entity of period p covers hours 6p to 6p + 6 of its date, and its id is made from
      those two times. */
  lemma EntityValidity(ctx: Context, date: string, day: Day, p: nat)
    requires p < 4 && Entity(ctx, (date, day, Periods[p])).Success?
    ensures Entity(ctx, (date, day, Periods[p])).value.validity ==
      Validity(ctx.clock.iso(ctx.zone, LocalTime(date, 6 * p)), ctx.clock.iso(ctx.zone, LocalTime(date, 6 * p + 6)))
    ensures Entity(ctx, (date, day, Periods[p])).value.id ==
      ForecastId(ctx, date, LocalTime(date, 6 * p), LocalTime(date, 6 * p + 6))
  {
    WindowsTileTheDay(p);
  }

  /** With `latest` only the one matching day name is appended, since today and tomorrow
      differ. */
  lemma ForecastIdShape(ctx: Context, date: string, from: LocalTime, to: LocalTime)
    requires ctx.today != ctx.tomorrow && (date == ctx.today || date == ctx.tomorrow)
    ensures ForecastId(ctx, date, from, to) ==
        if ctx.latest then
          IdPrefix + ctx.station + (if date == ctx.today then "_today_" else "_tomorrow_")
          + ctx.clock.short(ctx.zone, from) + "_" + ctx.clock.short(ctx.zone, to)
        else
          IdPrefix + ctx.station + "_" + ctx.clock.iso(ctx.zone, from) + "_" + ctx.clock.iso(ctx.zone, to)
  {
    var a := ctx.clock.short(ctx.zone, from);
    var b := ctx.clock.short(ctx.zone, to);
    var day := if date == ctx.today then "_today_" else "_tomorrow_";
    if ctx.latest {
      if date == ctx.today {
        assert IdPrefix + (ctx.station + day + a + "_" + b) + "" == IdPrefix + ctx.station + day + a + "_" + b;
      } else {
        assert IdPrefix + "" + (ctx.station + day + a + "_" + b) == IdPrefix + ctx.station + day + a + "_" + b;
      }
    }
  }

  /** The id of a kept window: the prefix and station, then `_today_`/`_tomorrow_` and the short
      local times with `latest`, or the local ISO times without it. */
  lemma IdShape(ctx: Context, date: string, day: Day, p: nat)
    requires p < 4 && ctx.today != ctx.tomorrow && (date == ctx.today || date == ctx.tomorrow)
    requires Entity(ctx, (date, day, Periods[p])).Success?
    ensures var from := LocalTime(date, 6 * p);
      var to := LocalTime(date, 6 * p + 6);
      Entity(ctx, (date, day, Periods[p])).value.id ==
        if ctx.latest then
          IdPrefix + ctx.station + (if date == ctx.today then "_today_" else "_tomorrow_")
          + ctx.clock.short(ctx.zone, from) + "_" + ctx.clock.short(ctx.zone, to)
        else
          IdPrefix + ctx.station + "_" + ctx.clock.iso(ctx.zone, from) + "_" + ctx.clock.iso(ctx.zone, to)
  {
    EntityValidity(ctx, date, day, p);
    ForecastIdShape(ctx, date, LocalTime(date, 6 * p), LocalTime(date, 6 * p + 6));
  }

  /** `prepare_schema_one`: the station lookup and the time zone, then the loops over the days
      and periods. */
  method PrepareSchemaOne(source: Harvested, stations: map<string, StationRecord>, clock: Clock,
                          latest: bool, today: string, tomorrow: string)
    returns (r: Result<seq<WeatherForecast>, Crash>)
    ensures r == SchemaOne(source, stations, clock, latest, today, tomorrow)
  {
    if source.id !in stations {
      return Failure(KeyError(source.id));
    }
    var zone := ZoneOf(stations[source.id].timezone);
    if zone.None? {
      return Failure(AttributeError);
    }
    var ctx := Context(source.id, stations[source.id], zone.value,
                       clock.utc(zone.value, LocalTime(source.issued, 0)), source.retrieved,
                       clock, latest, today, tomorrow);
    r := WindowLoop(source.forecasts, today, tomorrow, EntityStep(ctx));
  }

  /** The loops of `prepare_schema_one`: for each day dated today or tomorrow, one entity per
      period, built by `build`; the first exception aborts. */
  method WindowLoop<E>(forecasts: seq<(string, Day)>, today: string, tomorrow: string,
                       build: ((string, Day, string)) -> Result<E, Crash>)
    returns (r: Result<seq<E>, Crash>)
    ensures r == Results.MapAll(Windows(forecasts, today, tomorrow), build)
  {
    var result: seq<E> := [];
    for n := 0 to |forecasts|
      invariant Results.MapAll(Windows(forecasts[..n], today, tomorrow), build) == Success(result)
    {
      var (date, day) := forecasts[n];
      WindowsStep(forecasts, n, today, tomorrow);
      if date != today && date != tomorrow {
        continue;
      }
      var extended := PeriodLoop(Windows(forecasts[..n], today, tomorrow), result, date, day, build);
      if extended.Failure? {
        FailureStays(forecasts, n, today, tomorrow, build);
        return extended;
      }
      result := extended.value;
    }
    assert forecasts[..|forecasts|] == forecasts;
    r := Success(result);
  }

  /** The inner loop over the periods of one day, continuing the entities `result` already
      built for the windows `before`. */
  method PeriodLoop<E>(ghost before: seq<(string, Day, string)>, result: seq<E>, date: string, day: Day,
                       build: ((string, Day, string)) -> Result<E, Crash>)
    returns (r: Result<seq<E>, Crash>)
    requires Results.MapAll(before, build) == Success(result)
    ensures r == Results.MapAll(before + DayWindows(date, day), build)
  {
    var acc := result;
    DayWindowsStep(before, date, day, 0);
    for p := 0 to 4
      invariant Results.MapAll(before + DayWindows(date, day)[..p], build) == Success(acc)
    {
      DayWindowsStep(before, date, day, p + 1);
      Results.MapAllSnoc(before + DayWindows(date, day)[..p], (date, day, Periods[p]), build);
      var e := build((date, day, Periods[p]));
      if e.Failure? {
        PeriodFailureStays(before, date, day, p, build);
        return Failure(e.error);
      }
      acc := acc + [e.value];
    }
    DayWindowsStep(before, date, day, 4);
    r := Success(acc);
  }

  /** One more forecast day adds its four windows when it is dated today or tomorrow, and
      nothing otherwise. */
  lemma WindowsStep(forecasts: seq<(string, Day)>, n: nat, today: string, tomorrow: string)
    requires n < |forecasts|
    ensures forecasts[n].0 == today || forecasts[n].0 == tomorrow ==>
      (Windows(forecasts[..n + 1], today, tomorrow) ==
        Windows(forecasts[..n], today, tomorrow) + DayWindows(forecasts[n].0, forecasts[n].1))
    ensures forecasts[n].0 != today && forecasts[n].0 != tomorrow ==>
      (Windows(forecasts[..n + 1], today, tomorrow) == Windows(forecasts[..n], today, tomorrow))
  {
    assert forecasts[..n + 1][..n] == forecasts[..n];
    var before := Windows(forecasts[..n], today, tomorrow);
    assert before + [] == before;
  }

  /** The windows of a day up to period p, after those of the earlier days. */
  lemma DayWindowsStep(before: seq<(string, Day, string)>, date: string, day: Day, p: nat)
    requires p <= 4
    ensures p == 0 ==> before + DayWindows(date, day)[..p] == before
    ensures p >= 1 ==> (before + DayWindows(date, day)[..p] ==
      (before + DayWindows(date, day)[..p - 1]) + [(date, day, Periods[p - 1])])
    ensures p == 4 ==> before + DayWindows(date, day)[..p] == before + DayWindows(date, day)
  {
    assert DayWindows(date, day)[..4] == DayWindows(date, day);
    assert before + [] == before;
    if p >= 1 {
      assert DayWindows(date, day)[..p] == DayWindows(date, day)[..p - 1] + [(date, day, Periods[p - 1])];
    }
  }

  /** Once a period's window fails, the rest of the day's windows change nothing. */
  lemma PeriodFailureStays<E>(before: seq<(string, Day, string)>, date: string, day: Day, p: nat,
                              build: ((string, Day, string)) -> Result<E, Crash>)
    requires p < 4
    requires Results.MapAll(before + DayWindows(date, day)[..p + 1], build).Failure?
    ensures Results.MapAll(before + DayWindows(date, day), build) ==
      Results.MapAll(before + DayWindows(date, day)[..p + 1], build)
  {
    var days := DayWindows(date, day);
    assert days == days[..p + 1] + days[p + 1..];
    Collections.AppendAssoc(before, days[..p + 1], days[p + 1..]);
    Results.MapAllFailurePrefix(before + days[..p + 1], days[p + 1..], build);
  }

  /** Once a day's windows fail, the whole day list fails with that crash. */
  lemma FailureStays<E>(forecasts: seq<(string, Day)>, n: nat, today: string, tomorrow: string,
                        build: ((string, Day, string)) -> Result<E, Crash>)
    requires n < |forecasts|
    requires forecasts[n].0 == today || forecasts[n].0 == tomorrow
    requires Results.MapAll(Windows(forecasts[..n], today, tomorrow) + DayWindows(forecasts[n].0, forecasts[n].1), build).Failure?
    ensures Results.MapAll(Windows(forecasts, today, tomorrow), build) ==
      Results.MapAll(Windows(forecasts[..n], today, tomorrow) + DayWindows(forecasts[n].0, forecasts[n].1), build)
  {
    var days := DayWindows(forecasts[n].0, forecasts[n].1);
    var earlier := Windows(forecasts[..n], today, tomorrow);
    var later := WindowsFrom(forecasts, n + 1, today, tomorrow);
    WindowsPrefix(forecasts, n, today, tomorrow);
    WindowsFromStep(forecasts, n, today, tomorrow);
    Collections.AppendAssoc(earlier, days, later);
    Results.MapAllFailurePrefix(earlier + days, later, build);
  }

  /** The windows of the days from index n on. */
  function WindowsFrom(forecasts: seq<(string, Day)>, n: nat, today: string, tomorrow: string): seq<(string, Day, string)>
    requires n <= |forecasts|
    decreases |forecasts| - n
  {
    if n == |forecasts| then []
    else
      var (date, day) := forecasts[n];
      (if date == today || date == tomorrow then DayWindows(date, day) else []) + WindowsFrom(forecasts, n + 1, today, tomorrow)
  }

  lemma {:induction false} WindowsPrefix(forecasts: seq<(string, Day)>, n: nat, today: string, tomorrow: string)
    requires n <= |forecasts|
    ensures Windows(forecasts, today, tomorrow) == Windows(forecasts[..n], today, tomorrow) + WindowsFrom(forecasts, n, today, tomorrow)
    decreases |forecasts| - n
  {
    if n < |forecasts| {
      WindowsPrefix(forecasts, n + 1, today, tomorrow);
      assert forecasts[..n + 1][..n] == forecasts[..n];
    } else {
      assert forecasts[..n] == forecasts;
    }
  }

  lemma WindowsFromStep(forecasts: seq<(string, Day)>, n: nat, today: string, tomorrow: string)
    requires n < |forecasts|
    requires forecasts[n].0 == today || forecasts[n].0 == tomorrow
    ensures WindowsFrom(forecasts, n, today, tomorrow) ==
      DayWindows(forecasts[n].0, forecasts[n].1) + WindowsFrom(forecasts, n + 1, today, tomorrow)
  {
  }

  // ---------------------------------------------------------------------------------------
  // prepare_schema
  // ---------------------------------------------------------------------------------------

  /** All harvested municipalities' entities, one list after the other; the first exception
      aborts the pass. */
  function PrepareSchema(sources: seq<Harvested>, stations: map<string, StationRecord>, clock: Clock,
                         latest: bool, today: string, tomorrow: string): (r: Result<seq<WeatherForecast>, Crash>)
    ensures r.Success? <==>
      forall k :: 0 <= k < |sources| ==> SchemaOne(sources[k], stations, clock, latest, today, tomorrow).Success?
    ensures r.Success? ==> forall e :: e in r.value <==>
      exists k :: 0 <= k < |sources| && e in SchemaOne(sources[k], stations, clock, latest, today, tomorrow).value
    ensures r.Success? ==> r.value == Collections.Flatten(Results.Values(sources, SchemaStep(stations, clock, latest, today, tomorrow)))
  {
    Results.ConcatMap(sources, SchemaStep(stations, clock, latest, today, tomorrow))
  }

  function SchemaStep(stations: map<string, StationRecord>, clock: Clock, latest: bool, today: string, tomorrow: string)
    : Harvested -> Result<seq<WeatherForecast>, Crash>
  {
    source => SchemaOne(source, stations, clock, latest, today, tomorrow)
  }

  // ---------------------------------------------------------------------------------------
  // setup_stations
  // ---------------------------------------------------------------------------------------

  const StationUrlPrefix := "http://www.aemet.es/xml/municipios/localidad_"

  /** `url_observation.format(station)`. */
  function StationUrl(code: string): (u: string)
    ensures |u| == |StationUrlPrefix| + |code| + 4
    ensures u[..|StationUrlPrefix|] == StationUrlPrefix && u[|StationUrlPrefix|..|u| - 4] == code
    ensures u[|u| - 4..] == ".xml"
  {
    StationUrlPrefix + code + ".xml"
  }

  /** The record `setup_stations` writes for a municipality: its code as postal code, its
      sanitized name, the time zone of its province's community, its forecast URL. */
  function RecordOf(reg: Registry, code: string, m: Municipality): StationRecord
    requires m.province in reg.provinces && reg.provinces[m.province].community in reg.communities
  {
    StationRecord(code, Text.Sanitize(m.name),
                  reg.communities[reg.provinces[m.province].community].timezone, StationUrl(code))
  }

  /** Every municipality of the registry with its record, in the file's order. */
  function Records(reg: Registry): (r: seq<(string, StationRecord)>)
    requires WellFormed(reg)
    ensures |r| == |reg.municipalities|
    ensures forall k :: 0 <= k < |r| ==> r[k] == (reg.municipalities[k].0, RecordOf(reg, reg.municipalities[k].0, reg.municipalities[k].1))
  {
    seq(|reg.municipalities|, k requires 0 <= k < |reg.municipalities| =>
      (reg.municipalities[k].0, RecordOf(reg, reg.municipalities[k].0, reg.municipalities[k].1)))
  }

  /** The registry `setup_stations` reads: the local file, or else the download. */
  function Source(file: Option<Registry>, download: Selection.Reply<Registry>): Result<Registry, Exit> {
    if file.Some? then Success(file.value) else Selection.Download(download)
  }

  /** `setup_stations`: load the registry, keep the admitted municipalities, exit when the
      include list is not matched one to one. */
  method SetupStations(file: Option<Registry>, download: Selection.Reply<Registry>, limits: Selection.Limits)
    returns (r: Result<map<string, StationRecord>, Exit>)
    requires file.Some? ==> WellFormed(file.value)
    requires download.Answered? ==> WellFormed(download.body)
    ensures r.Failure? ==> r.error == Exit(1)
    ensures r.Failure? <==>
      (Source(file, download).Failure? ||
       (limits.included.Some? && |Selection.Kept(Records(Source(file, download).value), limits)| != |limits.included.value|))
    ensures r.Success? ==> r.value == Selection.Kept(Records(Source(file, download).value), limits)
  {
    var source: Registry;
    if file.Some? {
      source := file.value;
    } else {
      var fetched := Selection.Download(download);
      if fetched.Failure? {
        return Failure(fetched.error);
      }
      source := fetched.value;
    }
    r := Selection.SelectStations(Records(source), limits);
  }

  /** A selected station is an admitted municipality of the registry; its record carries its
      own code, a name free of the characters `sanitize` removes, the time zone of its
      community and its own URL. */
  lemma SelectedRecords(reg: Registry, limits: Selection.Limits, code: string)
    requires WellFormed(reg)
    requires code in Selection.Kept(Records(reg), limits)
    ensures Selection.Admitted(code, limits)
    ensures exists k :: 0 <= k < |reg.municipalities| && reg.municipalities[k].0 == code &&
                        Selection.Kept(Records(reg), limits)[code] == RecordOf(reg, code, reg.municipalities[k].1)
    ensures var rec := Selection.Kept(Records(reg), limits)[code];
      rec.postalCode == code && Text.Clean(rec.addressLocality) && rec.url == StationUrl(code)
  {
    var entries := Records(reg);
    Selection.KeptKeys(entries, limits, code);
    Selection.KeptFrom(entries, limits);
    var k :| 0 <= k < |entries| && entries[k] == (code, Selection.Kept(entries, limits)[code]);
    assert reg.municipalities[k].0 == code;
  }
}
