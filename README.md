# FIWARE data-model harvesters, modelled in Dafny

This project models the harvester and uploader scripts of the FIWARE data-models repository. Each script fetches weather, station or bike records and reshapes them into NGSI v2 entities. It then posts those entities to an Orion context broker in batches, using the NGSI v2 batch operation `POST /v2/op/update` with `actionType: APPEND`. The scripts modelled are:

- the AEMET XML forecast harvester (`spain/harvester.py`);
- the AEMET OpenData forecast collector (`spain/run.py`);
- the IPMA forecast harvester (`WeatherForecast/.../portugal/harvester.py`);
- the IPMA observation harvester (`WeatherObserved/.../portugal/harvester.py`);
- the AEMET weather-station uploader (`WeatherStation/upload.py`);
- the Barcelona Bicing harvester.

Logic that the scripts repeat is defined once and shared:

| module | what it models | scripts |
|---|---|---|
| `Batching` | the `post` partition loop, which drains the entity list with `pop()` into numbered batches (a class `EntityList` updated in place, and a method with loop invariants); `post_one`'s classification of broker responses; the de-duplicated failure log | the forecast and observation harvesters and the station uploader; the Bicing harvester uses only the APPEND payload |
| `Gathering` | `while False in result: result.remove(False)` | the forecast harvesters |
| `Registry` | `setup_stations_config`, the include/exclude filter of `setup_stations` and its include-count check | the forecast and observation harvesters |
| `Text` | `sanitize`, plus the parts of `str` the decoders use: `lower`, `strip`, `endswith`, `index`, `replace`, `str(int)`, `int(str)` and string ordering | all |
| `Compass` | the two `decode_wind_direction` tables | the forecast and observation harvesters |

Each script has its own module:

- `SpainHarvester`
- `SpainRun`
- `PortugalForecast`
- `PortugalObserved`
- `WeatherStations`
- `BikeStations`

The four forecast and observation modules each hold that script's decoders, its harvesting or `prepare_schema_one` loop (as a method proved equal to a specification function), its entity-id construction, its time-zone choice and its `setup_stations`. `WeatherStations` holds the uploader's address resolution, its `prepare_schema` and the run that posts the entities in batches. `BikeStations` holds `harmonize_station`, its status and integer conversions, and the run that sends every station in one APPEND update, without batches.

How Python behaviour is represented:

- An uncaught Python exception is a `Failure(Crash)` result. A `KeyError` carries the missing key.
- A fatal `exit(1)` is `Failure(Exit(1))`.
- The `False` of a failed fetch is `NoData`.
- Time stamps are abstract. A `LocalTime` is a date as the feed writes it plus an hour offset. A `Clock` parameter supplies the `isoformat`/`strftime` renderings in a zone. "Today" and "tomorrow" are inputs.
- Broker responses are a function of the batch number and its entities.

## Model

| member | source | states |
|---|---|---|
| Batching.Chunks | specs/Weather/WeatherForecast/harvest/spain/harvester.py:399-413 | at least one batch; every batch but the last holds exactly `limit` entities; the last holds 1 to `limit`, unless the input is empty and the result is one empty batch |
| Batching.BatchesShape | specs/Weather/WeatherForecast/harvest/spain/harvester.py:399-413 | read in key order, the batches are the body reversed (`pop` takes from the end); all but the last are full; an empty body gives exactly one empty batch; otherwise the last batch is non-empty and there are ceil(n / limit) batches |
| Batching.FlattenChunks | specs/Weather/WeatherForecast/harvest/spain/harvester.py:403-413 | no entity is lost or duplicated by the cutting |
| Batching.ChunksCount | specs/Weather/WeatherForecast/harvest/spain/harvester.py:403-413 | for n > 0 entities there are ceil(n / limit) batches |
| Batching.ChunksUnique | specs/Weather/WeatherForecast/harvest/spain/harvester.py:403-413 | any cutting into full batches followed by one non-empty batch of at most `limit` is the cutting the specification makes |
| Batching.EntityList.Pop | specs/Weather/WeatherForecast/harvest/spain/harvester.py:406 | `pop()` removes and returns the last entity |
| Batching.Partition | specs/Weather/WeatherForecast/harvest/spain/harvester.py:399-413 | the loop empties `body`; `body_divided` has exactly the keys 0..i; key k holds batch k of the specification (the same loop is at specs/PointOfInterest/WeatherStation/upload.py:66-80, with `limit` as both batch size and concurrency cap) |
| Batching.PopStep | specs/Weather/WeatherForecast/harvest/spain/harvester.py:405-407 | appending a popped entity to a non-full open batch keeps the loop invariant |
| Batching.CloseStep | specs/Weather/WeatherForecast/harvest/spain/harvester.py:408-411 | closing a full batch and opening an empty one under the next key keeps the loop invariant |
| Batching.PartitionComplete | specs/Weather/WeatherForecast/harvest/spain/harvester.py:403-413 | when the body is drained, the batches built are exactly the specified batches |
| Batching.Payload | specs/Weather/WeatherForecast/harvest/spain/harvester.py:438-441 | a batch is sent as an APPEND update holding exactly that batch |
| Batching.PostOneClassifies | specs/Weather/WeatherForecast/harvest/spain/harvester.py:446-455 | a batch is accepted if and only if the broker answered with 200, 201 or 204; the connection reason comes exactly from a connection error; a refused status gives the prefix followed by the status in decimal, which reads back as that status |
| Batching.WordingsUnambiguous | specs/Weather/WeatherForecast/harvest/spain/run.py:446-450 | for both the short wording ('connection problems' / 'return code ') and run.py's long wording, the connection reason cannot be taken for a status reason |
| Batching.SameReasonSameResponse | specs/Weather/WeatherForecast/harvest/spain/harvester.py:449-453 | two failed batches give the same reason only when the broker failed them the same way |
| Batching.Outcomes | specs/Weather/WeatherForecast/harvest/spain/harvester.py:415-420 | one gathered outcome per batch, in batch order; outcome k is `post_one`'s classification of the broker's answer to batch k sent as an APPEND update |
| Batching.LogFailures | specs/Weather/WeatherForecast/harvest/spain/harvester.py:422-427 | the logged reasons are distinct and are exactly the failure reasons among the outcomes; `True` is never logged |
| Batching.Post | specs/Weather/WeatherForecast/harvest/spain/harvester.py:383-429 | `post` empties the body and logs each distinct failure reason of the batches once, and nothing else |
| Batching.AllAcceptedLogsNothing | specs/Weather/WeatherForecast/harvest/spain/harvester.py:422-427 | when the broker accepts every batch, no reason is logged |
| Batching.ThreeBatchesOneFailure | specs/Weather/WeatherForecast/harvest/spain/harvester.py:399-427 | 120 entities in batches of 50 go out as 50, 50 and 20, the last entity first; a 500 on the second batch alone logs only 'return code 500' |
| Gathering.WithoutFailuresMembers | specs/Weather/WeatherForecast/harvest/spain/harvester.py:230-231 | every fetched result survives the removal, and nothing else does |
| Gathering.WithoutFailuresConcat | specs/Weather/WeatherForecast/harvest/spain/harvester.py:230-231 | the removal works piece by piece: it distributes over concatenation |
| Gathering.WithoutFailuresNone | specs/Weather/WeatherForecast/harvest/spain/harvester.py:230-231 | with no `False` present, nothing changes |
| Gathering.FirstFailure | specs/Weather/WeatherForecast/harvest/spain/harvester.py:231 | `remove(False)` deletes the first `False` |
| Gathering.DropFailureAt | specs/Weather/WeatherForecast/harvest/spain/harvester.py:231 | deleting one `False` leaves the surviving results as they were |
| Gathering.RemoveFailures | specs/Weather/WeatherForecast/harvest/spain/harvester.py:230-231 | the loop ends with no `False` left and the fetched results in their original order (also spain/run.py:162-163 and portugal/harvester.py:197-198) |
| Registry.CopyList | specs/Weather/WeatherForecast/harvest/spain/run.py:640-648 | the copy loop copies each list in order |
| Registry.SetupStationsConfig | specs/Weather/WeatherForecast/harvest/spain/run.py:624-657 | no file gives no limits; a missing file, an empty document, a non-list entry, or both 'include' and 'exclude' present exits with code 1; otherwise the limits are exactly the document's lists, and never both |
| Registry.Download | specs/Weather/WeatherForecast/harvest/spain/harvester.py:648-660 | fetching a station list succeeds if and only if the server answers with a status in `http_ok`; anything else exits with code 1 |
| Registry.KeptKeys | specs/Weather/WeatherForecast/harvest/spain/run.py:601-614 | a station is kept if and only if it is in the registry, on the include list (when there is one) and not on the exclude list |
| Registry.KeptLastWins | specs/Weather/WeatherForecast/harvest/spain/run.py:610-614 | a kept station carries the record of its last entry |
| Registry.KeptFrom | specs/Weather/WeatherForecast/harvest/spain/run.py:610-614 | every kept record comes from a registry entry with that code |
| Registry.IncludeCheckMeaning | specs/Weather/WeatherForecast/harvest/spain/run.py:616-619 | the include-count check passes if and only if the include list has no repeats and names only registry stations that are not excluded |
| Registry.SelectStations | specs/Weather/WeatherForecast/harvest/spain/run.py:601-621 | the selection loop keeps exactly the admitted stations, and exits with code 1 exactly when an include list is not matched in number |
| Text.Sanitize | specs/Weather/WeatherForecast/harvest/portugal/harvester.py:447-448 | the result holds none of `< ( > ) " ' = ; -` and is no longer than the input |
| Text.SanitizeFixesExactlyClean | specs/Weather/WeatherForecast/harvest/portugal/harvester.py:447-448 | a string is left unchanged if and only if it holds no forbidden character |
| Text.SanitizeConcat | specs/Weather/WeatherForecast/harvest/portugal/harvester.py:447-448 | sanitizing distributes over concatenation, so every allowed character is kept in order |
| Text.SanitizeChar | specs/Weather/WeatherForecast/harvest/portugal/harvester.py:448 | a single character is dropped if and only if it is forbidden |
| Text.SanitizeIdempotent | specs/Weather/WeatherForecast/harvest/portugal/harvester.py:447-448 | sanitizing twice is sanitizing once |
| Text.Lower | specs/Weather/WeatherForecast/harvest/spain/harvester.py:134 | lower-casing preserves length and maps each character by itself |
| Text.LowerOfLoweredSlice | specs/Weather/WeatherForecast/harvest/spain/harvester.py:134-139 | a piece of a lower-cased string is already lower case |
| Text.TrimStart | specs/Weather/WeatherForecast/harvest/spain/harvester.py:139 | the result is a suffix of the input; everything removed is white space, and the result does not start with white space, so exactly the longest white-space prefix is removed |
| Text.TrimEnd | specs/Weather/WeatherForecast/harvest/spain/harvester.py:139 | the result is a prefix of the input; everything removed is white space, and the result does not end with white space, so exactly the longest white-space suffix is removed |
| Text.StripIsSlice | specs/Weather/WeatherForecast/harvest/spain/harvester.py:139 | `strip()` returns a contiguous piece of its argument |
| Text.FindFrom | specs/Weather/WeatherForecast/harvest/spain/harvester.py:139 | returns the first occurrence at or after the start, or -1 exactly when there is none |
| Text.Find | specs/Weather/WeatherForecast/harvest/spain/harvester.py:139 | `index` returns the first occurrence; -1 means there is none |
| Text.EndsWithFinds | specs/Weather/WeatherForecast/harvest/spain/harvester.py:137-139 | when `endswith` holds, `index` cannot fail and finds a position no later than the suffix |
| Text.PieceBeforeFirstAvoids | specs/Weather/WeatherForecast/harvest/spain/harvester.py:139 | nothing cut from before the first occurrence contains the pattern |
| Text.ReplaceAbsent | specs/Weather/WeatherForecast/harvest/spain/run.py:497 | `replace` leaves a string without the pattern unchanged |
| Text.ReplaceAtEnd | specs/Weather/WeatherForecast/harvest/spain/run.py:497 | a single trailing occurrence is the one replaced |
| Text.NatToString | specs/Weather/WeatherForecast/harvest/spain/harvester.py:453 | `str` of a natural number is a non-empty run of decimal digits |
| Text.NatToStringValue | specs/Weather/WeatherForecast/harvest/spain/harvester.py:453 | the digits of `str(n)` have the value n |
| Text.IntToStringRoundTrip | specs/Weather/WeatherForecast/harvest/portugal/harvester.py:492 | `int(str(i)) == i` for every int |
| Text.IntToStringInjective | specs/Weather/WeatherForecast/harvest/portugal/harvester.py:492 | different ids render as different codes |
| Text.ParseIntDomain | Transportation/Bike/BikeHireDockingStation/harvest/bicycle_hire_station_barcelona_harvest.py:63-67 | `int` accepts a string if and only if, once stripped, it is an optional sign followed by at least one decimal digit |
| Text.ParseDigits | Transportation/Bike/BikeHireDockingStation/harvest/bicycle_hire_station_barcelona_harvest.py:63 | `int` reads a run of digits, with or without a minus sign, as its value |
| Text.LexIrreflexive | specs/Weather/WeatherObserved/harvest/portugal/harvester.py:159 | Python's string order is irreflexive |
| Text.LexTransitive | specs/Weather/WeatherObserved/harvest/portugal/harvester.py:159 | it is transitive |
| Text.LexTotal | specs/Weather/WeatherObserved/harvest/portugal/harvester.py:159 | it is total on distinct strings |
| Collections.ElementsCard | specs/Weather/WeatherForecast/harvest/spain/harvester.py:422 | `len(set(s)) <= len(s)`, with equality exactly when nothing repeats |
| Compass.SpanishRange | specs/Weather/WeatherForecast/harvest/spain/harvester.py:177-213 | a decoded direction is one of 180, 135, 90, 45, 0, -45, -90, -135; None comes exactly from 'Calma', 'C' and names outside the table |
| Compass.SpanishSynonyms | specs/Weather/WeatherForecast/harvest/spain/run.py:346-368 | synonyms and abbreviations share an angle ('Suroeste'/'Sudoeste'/'SO', and so on) |
| Compass.PortugueseRange | specs/Weather/WeatherForecast/harvest/portugal/harvester.py:151-180 | a decoded direction is one of the eight angles; None exactly for codes outside the table |
| Compass.PortugueseDigits | specs/Weather/WeatherForecast/harvest/portugal/harvester.py:163-180 | digit d means 45 * (d - 5), the same angle as its compass abbreviation |
| Compass.DecodeObserved | specs/Weather/WeatherObserved/harvest/portugal/harvester.py:330 | the observation harvester decodes `str(value)`: an int through its decimal rendering, a string as is, anything else to None |
| Compass.ObservedIntCodes | specs/Weather/WeatherObserved/harvest/portugal/harvester.py:330 | integer code d in 2..9 decodes to 45 * (d - 5); integer 9 is north (180) |
| Compass.ForecastIgnoresIntCodes | specs/Weather/WeatherForecast/harvest/portugal/harvester.py:423-424 | the two Portuguese decoders agree on strings; the forecast one drops integer codes, which the observation one reads |
| Time.PortugueseZone | specs/Weather/WeatherForecast/harvest/portugal/harvester.py:355-358 | Azores time if and only if the code is in the script's `tz_azot_codes`, Lisbon time otherwise (the observation harvester makes the same choice at specs/Weather/WeatherObserved/harvest/portugal/harvester.py:290-293) |
| JsonValue.Float | specs/Weather/WeatherObserved/harvest/portugal/harvester.py:307-333 | `float` fails exactly on null, with a TypeError, and otherwise passes the reading on (also every reading at specs/Weather/WeatherForecast/harvest/spain/run.py:515-545, the extremes at specs/Weather/WeatherForecast/harvest/portugal/harvester.py:398-400, the coordinates at specs/PointOfInterest/WeatherStation/upload.py:146-147 and Transportation/Bike/BikeHireDockingStation/harvest/bicycle_hire_station_barcelona_harvest.py:82-84) |
| Forecast.Validity | specs/Weather/WeatherForecast/harvest/spain/harvester.py:576 | `validity` is the start, a '/' and the end |
| SpainHarvester.DecodeWeatherType | specs/Weather/WeatherForecast/harvest/spain/harvester.py:130-174 | None gives None; a decoded value always comes from a key the table maps |
| SpainHarvester.NightKeyAvoidsNoche | specs/Weather/WeatherForecast/harvest/spain/harvester.py:137-139 | the key looked up for a night description holds no "noche" and is lower case |
| SpainHarvester.NightKeyIsSlice | specs/Weather/WeatherForecast/harvest/spain/harvester.py:139 | that key is a piece of the lower-cased description before its first "noche" |
| SpainHarvester.ClearNightUnreachable | specs/Weather/WeatherForecast/harvest/spain/harvester.py:137-173 | 'despejado noche' is never looked up, so "clearNight" never comes out |
| SpainHarvester.ClearNightOnlyAt | specs/Weather/WeatherForecast/harvest/spain/harvester.py:141-173 | the table gives "clearNight" only under 'despejado noche' |
| SpainHarvester.NightIsDaytimePlusSuffix | specs/Weather/WeatherForecast/harvest/spain/harvester.py:134-174 | a description ending in "noche" decodes as its trimmed daytime part followed by ', night'; None when the daytime part is unmapped |
| SpainHarvester.WindowsTileTheDay | specs/Weather/WeatherForecast/harvest/spain/harvester.py:496-518 | period p covers local hours [6p, 6p + 6), its label is the end hour and its range key is 'start-end' ('00-06' … '18-24') |
| SpainHarvester.QualifyingDates | specs/Weather/WeatherForecast/harvest/spain/harvester.py:493-495 | a forecast day is used if and only if it is dated today or tomorrow |
| SpainHarvester.WindowsPerDay | specs/Weather/WeatherForecast/harvest/spain/harvester.py:493-496 | four windows per used day; window 4k + p is period p of the k-th used day |
| SpainHarvester.SchemaOneWindows | specs/Weather/WeatherForecast/harvest/spain/harvester.py:474-589 | an unknown time zone fails with AttributeError; a successful pass gives 4 entities per used day, entity 4k + p carrying the validity of hours [6p, 6p + 6) of day k |
| SpainHarvester.EntityValidity | specs/Weather/WeatherForecast/harvest/spain/harvester.py:503-576 | the entity of period p has the validity and the id of hours [6p, 6p + 6) of its date |
| SpainHarvester.ForecastIdShape | specs/Weather/WeatherForecast/harvest/spain/harvester.py:527-533 | with `latest`, the id is the prefix, the station, '_today_' or '_tomorrow_' and the short times; otherwise the prefix, the station and the local ISO times |
| SpainHarvester.IdShape | specs/Weather/WeatherForecast/harvest/spain/harvester.py:527-533 | the same, for the entity of each kept window |
| SpainHarvester.PrepareSchemaOne | specs/Weather/WeatherForecast/harvest/spain/harvester.py:474-589 | the nested loops return what the specification function `SchemaOne` gives |
| SpainHarvester.WindowLoop | specs/Weather/WeatherForecast/harvest/spain/harvester.py:493-587 | the loops build one entity per window, in order; the first exception aborts |
| SpainHarvester.PeriodLoop | specs/Weather/WeatherForecast/harvest/spain/harvester.py:496-587 | the inner loop extends the entities built so far by the day's four windows |
| SpainHarvester.PrepareSchema | specs/Weather/WeatherForecast/harvest/spain/harvester.py:458-471 | succeeds if and only if every municipality does; the result holds exactly their entities, in input order and with their repetitions: it is their entity lists concatenated |
| SpainHarvester.StationUrl | specs/Weather/WeatherForecast/harvest/spain/harvester.py:40 | the URL is the AEMET prefix, the code and '.xml' |
| SpainHarvester.Records | specs/Weather/WeatherForecast/harvest/spain/harvester.py:671-678 | one record per municipality, in file order |
| SpainHarvester.SetupStations | specs/Weather/WeatherForecast/harvest/spain/harvester.py:631-685 | the local file, else the download (exit 1 when it fails); exactly the admitted municipalities are kept; exit 1 exactly when the include count does not match |
| SpainHarvester.SelectedRecords | specs/Weather/WeatherForecast/harvest/spain/harvester.py:662-678 | a kept municipality is admitted; its record has its own code as postal code, a sanitized name, its community's time zone and its own URL |
| SpainRun.DecodeWeatherType | specs/Weather/WeatherForecast/harvest/spain/run.py:280-287 | None gives None, '11' gives 'sunnyDay', '11n' gives 'cleanNight' |
| SpainRun.NightKeyHasNoN | specs/Weather/WeatherForecast/harvest/spain/run.py:289-291 | the key of a night code holds no 'n' |
| SpainRun.ClearNightCodeUnreachable | specs/Weather/WeatherForecast/harvest/spain/run.py:283-297 | the early return for '11n' shadows the table, so "clearNight" never comes out |
| SpainRun.KeyIsNotClearNightCode | specs/Weather/WeatherForecast/harvest/spain/run.py:286-291 | no other code is looked up under '11n' |
| SpainRun.DecodedNeverClearNight | specs/Weather/WeatherForecast/harvest/spain/run.py:295-329 | no key other than '11n', with either suffix, decodes to "clearNight" |
| SpainRun.DecodedAppends | specs/Weather/WeatherForecast/harvest/spain/run.py:329 | a decoded value is the table entry followed by the suffix |
| SpainRun.ClearNightOnlyAt | specs/Weather/WeatherForecast/harvest/spain/run.py:295-328 | the table gives "clearNight" only under '11n' |
| SpainRun.NightCodeIsDaytimePlusSuffix | specs/Weather/WeatherForecast/harvest/spain/run.py:289-329 | a code ending in 'n' decodes as the code before its first 'n' followed by ', night'; None when that code is unmapped |
| SpainRun.IsoZulu | specs/Weather/WeatherForecast/harvest/spain/run.py:497 | a UTC rendering ending in '+00:00' gets the 'Z' suffix instead |
| SpainRun.EntitySucceeds | specs/Weather/WeatherForecast/harvest/spain/run.py:508-545 | the entity of a window is built if and only if the station is known, none of the day's six extremes is null, the day's lists are long enough for the period's indices, and none of the period's readings passed to `float()` is null; a null extreme is a TypeError |
| SpainRun.SchemaOneSucceeds | specs/Weather/WeatherForecast/harvest/spain/run.py:471-549 | a pass succeeds if and only if the station is known and both days are complete (all four periods readable in that sense); an unknown station is a KeyError on it |
| SpainRun.WindowsInRange | specs/Weather/WeatherForecast/harvest/spain/run.py:475-478 | every window is today or tomorrow with a period below 4 |
| SpainRun.SchemaOneComplete | specs/Weather/WeatherForecast/harvest/spain/run.py:475-549 | a known station with complete days (long enough lists, no null reading) always succeeds |
| SpainRun.SchemaOneNeedsComplete | specs/Weather/WeatherForecast/harvest/spain/run.py:475-549 | a successful pass implies a known station and complete days: every period of both days passed its index checks and its `float()` calls |
| SpainRun.SchemaOneUnknownStation | specs/Weather/WeatherForecast/harvest/spain/run.py:508 | an unknown station fails with a KeyError on its code |
| SpainRun.EntityReadings | specs/Weather/WeatherForecast/harvest/spain/run.py:484-545 | period p covers hours [6p, 6p + 6); it carries the day's six extremes, reads `dato[p]` of the hourly series and index p + 3 of the range lists; its validity is from '/' to |
| SpainRun.SchemaOneIndexMapping | specs/Weather/WeatherForecast/harvest/spain/run.py:475-547 | a pass yields 8 entities; entity 4d + p is period p of day d |
| SpainRun.WindowAt | specs/Weather/WeatherForecast/harvest/spain/run.py:475-478 | window 4d + p is (day d, period p) |
| SpainRun.LatestIdsKeepDaysApart | specs/Weather/WeatherForecast/harvest/spain/run.py:503-504 | with `latest`, an entity of today never shares an id with one of tomorrow |
| SpainRun.PrepareSchemaOne | specs/Weather/WeatherForecast/harvest/spain/run.py:471-549 | the nested loops return what the specification function `SchemaOne` gives |
| SpainRun.DayPeriodLoop | specs/Weather/WeatherForecast/harvest/spain/run.py:475-547 | the loops build one entity per window in order; the first exception aborts |
| SpainRun.PrepareSchema | specs/Weather/WeatherForecast/harvest/spain/run.py:455-468 | succeeds if and only if every municipality does; the result holds exactly their entities, in input order and with their repetitions: it is their entity lists concatenated |
| SpainRun.ApiUrl | specs/Weather/WeatherForecast/harvest/spain/run.py:52 | the URL is the API prefix followed by the code |
| SpainRun.Records | specs/Weather/WeatherForecast/harvest/spain/run.py:610-614 | one record per municipality, keyed by its code, holding that code, its name and its own URL |
| SpainRun.SetupStations | specs/Weather/WeatherForecast/harvest/spain/run.py:582-621 | a missing file exits with code 1; exactly the admitted municipalities are kept; exit 1 exactly when the include count does not match |
| SpainRun.SelectedRecords | specs/Weather/WeatherForecast/harvest/spain/run.py:601-614 | a kept municipality is admitted, and its record holds its own code, its file name and its own URL |
| PortugalForecast.CheckEntity | specs/Weather/WeatherForecast/harvest/portugal/harvester.py:129-134 | the reading is returned if and only if the key is present and the value is neither null, '-99.0' nor a number equal to -99 |
| PortugalForecast.SentinelSpellings | specs/Weather/WeatherForecast/harvest/portugal/harvester.py:131 | -99, -99.0 and '-99.0' are markers; the string '-99' and -9.9 are values |
| PortugalForecast.SlotOf | specs/Weather/WeatherForecast/harvest/portugal/harvester.py:229-244 | a record is stored under its `dataPrev` if and only if `dataPrev`, `dataUpdate` (a string) and `idPeriodo` are present, a missing `dataPrev` or `dataUpdate` being a KeyError on it; it carries the issue time and the period, and each of its nine readings is `check_entity` of its IPMA key ('utci', 'probabilidadePrecipita', 'hR', 'tMed', 'tMax', 'tMin', 'idTipoTempo', 'ddVento', 'ffVento') |
| PortugalForecast.Store | specs/Weather/WeatherForecast/harvest/portugal/harvester.py:230-244 | storing a record keeps the dict's keys distinct and equal to its entries; a new date is added after the others, a known date keeps its place and takes the new record |
| PortugalForecast.StoreAllLastWins | specs/Weather/WeatherForecast/harvest/portugal/harvester.py:229-244 | after the loop, a date holds the record of the last forecast for that date |
| PortugalForecast.StoreAllDates | specs/Weather/WeatherForecast/harvest/portugal/harvester.py:229-244 | after the loop, the dict's dates are exactly the forecasts' dates, each listed once |
| PortugalForecast.Entries | specs/Weather/WeatherForecast/harvest/portugal/harvester.py:362 | the entries are listed in the order of the dict's keys |
| PortugalForecast.HarvestRecords | specs/Weather/WeatherForecast/harvest/portugal/harvester.py:224-244 | the loop over a location's forecasts returns what the specification function `HarvestForecasts` gives: the first exception aborts, otherwise every record is stored under its date |
| PortugalForecast.HarvestedAtMostTwo | specs/Weather/WeatherForecast/harvest/portugal/harvester.py:229-244 | a harvested location's dates are distinct, so it yields at most two entities |
| PortugalForecast.WeatherTypeDomain | specs/Weather/WeatherForecast/harvest/portugal/harvester.py:137-148 | exactly the numbers equal to 1, 2, 3, 4, 5, 6, 7, 9 or 11 decode; 8, 10 and the string '1' give None; True counts as 1 |
| PortugalForecast.KeptMembers | specs/Weather/WeatherForecast/harvest/portugal/harvester.py:362-366 | a date gets an entity if and only if it is today's or tomorrow's midnight and its period is 24 |
| PortugalForecast.KeptDatesFromDates | specs/Weather/WeatherForecast/harvest/portugal/harvester.py:362-364 | every kept date is one of the harvested dates, and is today's or tomorrow's midnight |
| PortugalForecast.KeptDatesDistinct | specs/Weather/WeatherForecast/harvest/portugal/harvester.py:362-366 | distinct dates give at most one entity per date |
| PortugalForecast.AtMostTwo | specs/Weather/WeatherForecast/harvest/portugal/harvester.py:362-366 | at most two entities per location |
| PortugalForecast.EntityWindow | specs/Weather/WeatherForecast/harvest/portugal/harvester.py:371-418 | as written: an unknown location is a KeyError on its code; an entity is built if and only if the location is known, both extremes are present and the precipitation probability is not text; a missing extreme or a text probability is a TypeError; its validity runs 24 hours from the date's midnight; it carries the extremes and the humidity unscaled |
| PortugalForecast.IntendedEntity | specs/Weather/WeatherForecast/harvest/portugal/harvester.py:391-406 | with the probability converted before it is divided, an entity is built if and only if the location is known and both extremes are present; the script as written differs from that exactly when the probability is text, and wherever it succeeds it builds the intended entity |
| PortugalForecast.IdShape | specs/Weather/WeatherForecast/harvest/portugal/harvester.py:383-389 | with `latest`, the id is the prefix, the code, '_today_' or '_tomorrow_' and the short times; otherwise the prefix, the code and the local ISO times |
| PortugalForecast.PrepareSchemaOne | specs/Weather/WeatherForecast/harvest/portugal/harvester.py:348-431 | the loop returns what the specification function `SchemaOne` gives |
| PortugalForecast.DateLoop | specs/Weather/WeatherForecast/harvest/portugal/harvester.py:362-429 | the loop skips unwanted dates and builds one entity per kept date in order; the first exception aborts |
| PortugalForecast.PrepareSchema | specs/Weather/WeatherForecast/harvest/portugal/harvester.py:332-345 | succeeds if and only if every location does; the result holds exactly their entities, in input order and with their repetitions: it is their entity lists concatenated |
| PortugalForecast.Records | specs/Weather/WeatherForecast/harvest/portugal/harvester.py:491-504 | one record per location: `str(globalIdLocal)` as key and postal code, the sanitized name, the URL |
| PortugalForecast.SetupStations | specs/Weather/WeatherForecast/harvest/portugal/harvester.py:467-511 | a failed download exits with code 1; exactly the admitted locations are kept; exit 1 exactly when the include count does not match |
| PortugalForecast.SelectedRecords | specs/Weather/WeatherForecast/harvest/portugal/harvester.py:491-504 | a kept code is admitted, reads back as its IPMA id, and has a sanitized name |
| PortugalObserved.FirstMissing | specs/Weather/WeatherObserved/harvest/portugal/harvester.py:174-180 | finds the first reading key the record lacks, in read order |
| PortugalObserved.ReadItem | specs/Weather/WeatherObserved/harvest/portugal/harvester.py:172-180 | an item is read if and only if all six readings are present, else a KeyError on a missing one; it carries its station code and date |
| PortugalObserved.DaySelectedMembers | specs/Weather/WeatherObserved/harvest/portugal/harvester.py:164-170 | a record of a date is used if and only if its station is registered and the record is non-empty |
| PortugalObserved.SelectedMembers | specs/Weather/WeatherObserved/harvest/portugal/harvester.py:158-182 | a (date, station) pair yields an item if and only if the date is processed (only the chosen one with `latest`), the station is registered and its record is non-empty |
| PortugalObserved.GreatestIsMaximum | specs/Weather/WeatherObserved/harvest/portugal/harvester.py:159 | the chosen date is one of the keys and no key is greater |
| PortugalObserved.HarvestSelection | specs/Weather/WeatherObserved/harvest/portugal/harvester.py:141-185 | a completed harvest has one item per selected pair, in order; every item's station is registered; with `latest`, every item has the greatest date |
| PortugalObserved.ItemsMatchTriples | specs/Weather/WeatherObserved/harvest/portugal/harvester.py:172-182 | item k is read from selected pair k and carries its code and date |
| PortugalObserved.SelectedTriple | specs/Weather/WeatherObserved/harvest/portugal/harvester.py:161-166 | a selected pair names a registered station and, with `latest`, the chosen date |
| PortugalObserved.HarvestObservations | specs/Weather/WeatherObserved/harvest/portugal/harvester.py:141-185 | the nested loops return what the specification function `Harvest` gives (False on a failed download) |
| PortugalObserved.SelectionLoop | specs/Weather/WeatherObserved/harvest/portugal/harvester.py:161-182 | the loops read one item per selected pair in order; the first exception aborts |
| PortugalObserved.EntityShape | specs/Weather/WeatherObserved/harvest/portugal/harvester.py:287-335 | built if and only if the station is known and no reading is null; carries the station's code, name and coordinates, the UTC observation time, the id and the decoded wind direction; `pressureTendency` stays null |
| PortugalObserved.ObservedIdShape | specs/Weather/WeatherObserved/harvest/portugal/harvester.py:299-302 | the id is the prefix, the code and '-latest', or '-' and the UTC time |
| PortugalObserved.LatestIdsDistinct | specs/Weather/WeatherObserved/harvest/portugal/harvester.py:299-300 | with `latest`, two entities share an id if and only if they share a station code |
| PortugalObserved.PrepareSchema | specs/Weather/WeatherObserved/harvest/portugal/harvester.py:271-284 | exactly one entity per item, in order, with no flattening |
| PortugalObserved.FailedDownloadCrashes | specs/Weather/WeatherObserved/harvest/portugal/harvester.py:518-520 | after a failed download the main loop passes False to `prepare_schema` and crashes with TypeError |
| PortugalObserved.HarvestedStationsKnown | specs/Weather/WeatherObserved/harvest/portugal/harvester.py:165-166 | no harvested item fails on the station lookup |
| PortugalObserved.Records | specs/Weather/WeatherObserved/harvest/portugal/harvester.py:394-406 | one record per feature: `str(idEstacao)` as key, the sanitized name, the coordinates |
| PortugalObserved.SetupStations | specs/Weather/WeatherObserved/harvest/portugal/harvester.py:370-413 | a failed download exits with code 1; exactly the admitted stations are kept; exit 1 exactly when the include count does not match |
| PortugalObserved.SelectedRecords | specs/Weather/WeatherObserved/harvest/portugal/harvester.py:394-406 | a kept code is admitted, reads back as its IPMA id, and has a sanitized name |
| SpanishRegistry.Lookup | specs/PointOfInterest/WeatherStation/upload.py:151-153 | a dictionary lookup finds a value if and only if the key is present, and the value belongs to that key |
| WeatherStations.AddressHierarchy | specs/PointOfInterest/WeatherStation/upload.py:150-157 | the locality is present exactly when the station has a municipality, and is its sanitized name; province and community come together, exactly when the province type is not '3' |
| WeatherStations.WellFormedAddresses | specs/PointOfInterest/WeatherStation/upload.py:150-157 | in a registry whose references resolve, addresses never fail, and an entity fails only on a null coordinate |
| WeatherStations.EntityShape | specs/PointOfInterest/WeatherStation/upload.py:141-159 | the id is 'Spain-WeatherStations-' and the code; the coordinates are [longitude, latitude]; the address is the station's address |
| WeatherStations.IdsDistinct | specs/PointOfInterest/WeatherStation/upload.py:145 | distinct codes give distinct ids |
| WeatherStations.PrepareSchema | specs/PointOfInterest/WeatherStation/upload.py:125-138 | one entity per station key, in file order; fails exactly when one entity does |
| WeatherStations.Upload | specs/PointOfInterest/WeatherStation/upload.py:50-98 | a failed entity aborts the run before `post` with its exception (upload.py:229-230); otherwise a negative `limit` is the semaphore's ValueError; otherwise each distinct failure reason among the batches of `limit` is logged once, and nothing else |
| BikeStations.Status | Transportation/Bike/BikeHireDockingStation/harvest/bicycle_hire_station_barcelona_harvest.py:19-22 | the string 'OPN' maps to 'working' and the string 'CLS' to 'outOfService', and nothing else maps to either; any other value, a string or not, is a KeyError on it |
| BikeStations.IntOfReadsCounts | Transportation/Bike/BikeHireDockingStation/harvest/bicycle_hire_station_barcelona_harvest.py:63 | `int` reads back every decimal rendering and every integer |
| BikeStations.IntOfTruncates | Transportation/Bike/BikeHireDockingStation/harvest/bicycle_hire_station_barcelona_harvest.py:63-67 | `int` of any float succeeds and truncates toward zero: the result is within 1 of the float, below it for positive values and above it for negative ones (2.5 gives 2, -2.5 gives -2) |
| BikeStations.IntOfRejectsText | Transportation/Bike/BikeHireDockingStation/harvest/bicycle_hire_station_barcelona_harvest.py:63-67 | `int` of a string fails if and only if the stripped text is not an optional sign followed by decimal digits, and then with ValueError ('' and 'n/a' among them) |
| BikeStations.Field | Transportation/Bike/BikeHireDockingStation/harvest/bicycle_hire_station_barcelona_harvest.py:60 | `d[key]` succeeds if and only if the key is present, else a KeyError on it |
| BikeStations.TextField | Transportation/Bike/BikeHireDockingStation/harvest/bicycle_hire_station_barcelona_harvest.py:60 | a field joined with `+` must be a present string |
| BikeStations.Coordinates | Transportation/Bike/BikeHireDockingStation/harvest/bicycle_hire_station_barcelona_harvest.py:81-85 | succeeds if and only if longitude, latitude and altitude are present and not null, giving them in that order |
| BikeStations.HarmonizeShape | Transportation/Bike/BikeHireDockingStation/harvest/bicycle_hire_station_barcelona_harvest.py:57-101 | type and id; the counters are `int(slots)` and `int(bikes)` and share one timestamp metadata; the address is Barcelona, ES with the sanitized street; the status is the status table's entry for the station's code, 'working' exactly for 'OPN'; three coordinates |
| BikeStations.StreetAddressParts | Transportation/Bike/BikeHireDockingStation/harvest/bicycle_hire_station_barcelona_harvest.py:74 | the street address is the sanitized name, a comma and the sanitized number |
| BikeStations.UnknownStatusFails | Transportation/Bike/BikeHireDockingStation/harvest/bicycle_hire_station_barcelona_harvest.py:90 | an otherwise valid station whose status is neither 'OPN' nor 'CLS', whatever its type, aborts with a KeyError on that status |
| BikeStations.Run | Transportation/Bike/BikeHireDockingStation/harvest/bicycle_hire_station_barcelona_harvest.py:132-148 | no data means no update; otherwise exactly one entity per station, in order, in one APPEND update, failing exactly when a station fails |

## Left out

- HTTP and concurrency are not modelled: the aiohttp, requests and urllib2 calls, `Semaphore` (beyond its refusal of a negative limit), `ensure_future` and `gather`. Gathered results are sequences in task order. When several tasks raise, the model reports the first in that order; asyncio reports the first to finish.
- The service loop, `sleep` and `timeout` are left out. So is run.py's `if res:` guard, which skips an empty pass.
- Parsing is left out: the XML DOM parsing of the Spanish `harvest_one` (harvester.py:242-372), and JSON, YAML and yajl loading (run.py `collect_one`, the `safe_load` calls). The model starts from the parsed values.
- `datetime`/`pytz` are not modelled: localisation, `astimezone`, `isoformat`, `strftime`, `strptime` and `now()`. The `Clock` parameter stands for them, and today and tomorrow are inputs.
- Floating point is not modelled. Readings are kept as the feed's raw values. Left out: the `/ 100` percentage scaling, the `* 0.28` wind conversion and `round(..., 2)`, and the ValueError `float()` raises on non-numeric text. The Portuguese forecast harvester does not divide `relativeHumidity` by 100 (portugal/harvester.py:409); `PortugalForecast.EntityWindow` states that the value is carried as read.
- Process glue is not modelled: `argparse`, `setup_logger`, `log_level_to_int`, `reply_status`, `setup_config_re` (the regex rewrite of the config text) and the log messages.
- tools/generate.py is not part of this model. The registry file it produces is the `SpanishRegistry.Registry` input.
- Text.Lower: lower-cases only ASCII and Latin-1 letters, not the whole of Unicode.
- Text.Strip: removes ASCII and Latin-1 white space only.
- Batching.Partition: requires a positive limit unless the body is empty. With `limit_entities` 0 and a non-empty body, the loop at harvester.py:403-413 never ends.
- Batching.Post: carries the same requirement.
- WeatherStations.Upload: requires a `limit` other than 0 unless an entity fails first. With 0 the script never finishes: the partition loop never ends for a non-empty body, and the single empty batch waits forever on `Semaphore(0)` (upload.py:64-80).
- PortugalForecast.StoreAll: dates are compared as JSON values. Python's dict would also merge the keys `1`, `1.0` and `True`.
- Text.ParseInt: accepts ASCII digits only. Python's `int` also accepts underscores between digits and non-ASCII decimal digits.
- BikeStations.KeyText: renders a non-whole float key as "float". Python's `KeyError` shows its shortest decimal rendering.
- SpainHarvester.SetupStations: requires every reference in the registry to resolve. The script resolves only those of admitted municipalities (harvester.py:672-677), so a dangling reference there would be a KeyError the model does not show.
- SpainHarvester.SchemaOneWindows: requires the municipality to be known. An unknown one is a KeyError at harvester.py:485.
- SpainHarvester.Entity reproduces a latent defect: `ft[period]['sens_termica']` (harvester.py:560) is read without checking that the day has that period key. A day without it aborts the pass with a KeyError.
- PortugalObserved.Cycle reproduces a latent defect: the main loop passes the `False` of a failed download to `prepare_schema` (harvester.py:519-520).
- The Bicing script is Python 2 (urllib2) and places `from __future__ import print_function` after other imports, which is a SyntaxError as written. It is modelled as if it ran. Its `persist_data` HTTP call and `read_data` download are I/O; only the payload is modelled.
- Dictionaries that are iterated are modelled as entry sequences in file order. Python's `dict.get` and `in` are modelled by map lookup.

## Findings

| source | as written | input that shows it | evidently intended | confidence | as-written member | corrected member |
|---|---|---|---|---|---|---|
| specs/Weather/WeatherForecast/harvest/portugal/harvester.py:406 | `float(ft['precipitationProbability'] / 100)` divides before converting. The value comes from `check_entity`, which tests it against the string marker '-99.0', so IPMA may send it as text, and dividing a string raises TypeError | `probabilidadePrecipita` = '20.0' (`PortugalForecast.ScaledStringCounterexample`) | `float(value) / 100`, as every other scaled reading in these scripts is written | medium, not executed | PortugalForecast.ScaledAsWritten, used by `PortugalForecast.Entity` | PortugalForecast.Scaled, used by `PortugalForecast.EntityIntended` (`PortugalForecast.IntendedEntity` compares the two) |
