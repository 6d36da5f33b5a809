/** The IPMA observation harvester (`WeatherObserved/harvest/portugal/harvester.py`): the
    hourly observations of every registered station become WeatherObserved entities. */
module PortugalObserved {
  import opened Wrappers
  import opened JsonValue
  import opened Time
  import Text
  import Compass
  import Selection = Registry
  import Results
  import opened Gathering
  import Collections

  const IdPrefix := "Portugal-WeatherObserved-"
  const SourceUrl := "https://www.ipma.pt"

  /** `tz_azot_codes`: the stations on the Azores. */
  const AzoresCodes: seq<string> := ["932", "501", "502", "504", "506", "507", "510", "511", "512", "513", "515"]

  // ---------------------------------------------------------------------------------------
  // harvest
  // ---------------------------------------------------------------------------------------

  /** A station's readings at one date: JSON null or an object. */
  type Record = Option<map<string, Json>>

  /** `observations.json`: date keys (distinct, being dict keys), each with its stations' records. */
  type Content = seq<(string, seq<(string, Record)>)>

  /** Python's truth value of a record: null and the empty object are false. */
  predicate Nonempty(record: Record) {
    record.Some? && |record.value| > 0
  }

  /** What `harvest` stores per station and date: the code, the date and six raw readings. */
  datatype Item = Item(id: string, atmosphericPressure: Json, dateObserved: string, precipitation: Json,
                       relativeHumidity: Json, temperature: Json, windDirection: Json, windSpeed: Json)

  /** The record keys `harvest` reads, in the order it reads them. */
  const ItemKeys: seq<string> := ["pressao", "precAcumulada", "humidade", "temperatura", "idDireccVento", "intensidadeVento"]

  /** The first of `keys` the record lacks. */
  function FirstMissing(record: map<string, Json>, keys: seq<string>): (r: Option<string>)
    ensures r.None? <==> forall k :: k in keys ==> k in record
    ensures r.Some? ==> r.value in keys && r.value !in record
    ensures r.Some? ==> exists i :: 0 <= i < |keys| && keys[i] == r.value && forall j :: 0 <= j < i ==> keys[j] in record
  {
    if keys == [] then None
    else if keys[0] !in record then Some(keys[0])
    else
      var rest := FirstMissing(record, keys[1..]);
      assert rest.Some? ==> exists i :: 0 <= i < |keys| && keys[i] == rest.value && forall j :: 0 <= j < i ==> keys[j] in record by {
        if rest.Some? {
          var i :| 0 <= i < |keys[1..]| && keys[1..][i] == rest.value && forall j :: 0 <= j < i ==> keys[1..][j] in record;
          assert keys[i + 1] == rest.value && forall j :: 0 <= j < i + 1 ==> keys[j] in record;
        }
      }
      rest
  }

  /** The item for one station at one date; a missing reading is a KeyError. */
  function ReadItem(date: string, code: string, record: map<string, Json>): (r: Result<Item, Crash>)
    ensures r.Success? <==> forall k :: k in ItemKeys ==> k in record
    ensures r.Failure? ==> r.error.KeyError? && r.error.key in ItemKeys && r.error.key !in record
    ensures r.Success? ==> r.value.id == code && r.value.dateObserved == date
    ensures r.Success? ==> r.value.temperature == record["temperatura"] && r.value.windDirection == record["idDireccVento"]
  {
    match FirstMissing(record, ItemKeys)
    case Some(k) => Failure(KeyError(k))
    case None =>
      ItemKeysPresent(record);
      Success(Item(code, record["pressao"], date, record["precAcumulada"], record["humidade"],
                   record["temperatura"], record["idDireccVento"], record["intensidadeVento"]))
  }

  /** The record holds every key `harvest` reads. */
  lemma ItemKeysPresent(record: map<string, Json>)
    ensures (forall k :: k in ItemKeys ==> k in record) <==>
      ("pressao" in record && "precAcumulada" in record && "humidade" in record &&
       "temperatura" in record && "idDireccVento" in record && "intensidadeVento" in record)
  {
    assert ItemKeys[0] == "pressao" && ItemKeys[1] == "precAcumulada" && ItemKeys[2] == "humidade";
    assert ItemKeys[3] == "temperatura" && ItemKeys[4] == "idDireccVento" && ItemKeys[5] == "intensidadeVento";
  }

  function ReadStep(t: (string, string, map<string, Json>)): Result<Item, Crash> {
    ReadItem(t.0, t.1, t.2)
  }

  /** The (date, code, record) triples a date contributes: registered stations with a
      non-empty record, in the order of the date's object. */
  function DaySelected(date: string, records: seq<(string, Record)>, stations: set<string>)
    : seq<(string, string, map<string, Json>)>
  {
    if records == [] then []
    else
      var last := records[|records| - 1];
      DaySelected(date, records[..|records| - 1], stations)
      + (if last.0 in stations && Nonempty(last.1) then [(date, last.0, last.1.value)] else [])
  }

  /** The triples `harvest` turns into items: every date, or only `last` with `latest`. */
  function Selected(content: Content, stations: set<string>, latest: bool, last: string)
    : seq<(string, string, map<string, Json>)>
  {
    if content == [] then []
    else
      var day := content[|content| - 1];
      Selected(content[..|content| - 1], stations, latest, last)
      + (if !latest || day.0 == last then DaySelected(day.0, day.1, stations) else [])
  }

  lemma {:induction false} DaySelectedMembers(date: string, records: seq<(string, Record)>, stations: set<string>)
    ensures forall t :: t in DaySelected(date, records, stations) <==>
      t.0 == date && (t.1, Some(t.2)) in records && t.1 in stations && |t.2| > 0
  {
    if records != [] {
      var init := records[..|records| - 1];
      DaySelectedMembers(date, init, stations);
      assert records == init + [records[|records| - 1]];
    }
  }

  /** A triple is selected exactly when its date is processed, its station is registered and
      its record is non-empty: one item per such pair. */
  lemma {:induction false} SelectedMembers(content: Content, stations: set<string>, latest: bool, last: string)
    ensures forall t :: t in Selected(content, stations, latest, last) <==>
      (!latest || t.0 == last) && t.1 in stations && |t.2| > 0 &&
      exists records :: (t.0, records) in content && (t.1, Some(t.2)) in records
  {
    if content != [] {
      var init := content[..|content| - 1];
      var day := content[|content| - 1];
      SelectedMembers(init, stations, latest, last);
      DaySelectedMembers(day.0, day.1, stations);
      assert content == init + [day];
      forall t
        ensures t in Selected(content, stations, latest, last) <==>
          (!latest || t.0 == last) && t.1 in stations && |t.2| > 0 &&
          exists records :: (t.0, records) in content && (t.1, Some(t.2)) in records
      {
        if (!latest || t.0 == last) && t.1 in stations && |t.2| > 0 {
          if records :| (t.0, records) in content && (t.1, Some(t.2)) in records {
            if (t.0, records) in init {
            } else {
              assert (t.0, records) == day;
            }
          }
        }
      }
    }
  }

  lemma {:induction false} DaySelectedConcat(date: string, a: seq<(string, Record)>, b: seq<(string, Record)>, stations: set<string>)
    ensures DaySelected(date, a + b, stations) == DaySelected(date, a, stations) + DaySelected(date, b, stations)
    decreases |b|
  {
    if b != [] {
      var init := b[..|b| - 1];
      DaySelectedConcat(date, a, init, stations);
      assert (a + b)[..|a + b| - 1] == a + init;
    } else {
      assert a + b == a;
    }
  }

  lemma {:induction false} SelectedConcat(a: Content, b: Content, stations: set<string>, latest: bool, last: string)
    ensures Selected(a + b, stations, latest, last) == Selected(a, stations, latest, last) + Selected(b, stations, latest, last)
    decreases |b|
  {
    if b != [] {
      var init := b[..|b| - 1];
      SelectedConcat(a, init, stations, latest, last);
      assert (a + b)[..|a + b| - 1] == a + init;
    } else {
      assert a + b == a;
    }
  }

  /** `sorted(content.items(), reverse=True)[0][0]`: the greatest date key. */
  function Greatest(keys: seq<string>): string
    requires |keys| > 0
  {
    if |keys| == 1 then keys[0]
    else
      var g := Greatest(keys[..|keys| - 1]);
      if Text.LexLess(g, keys[|keys| - 1]) then keys[|keys| - 1] else g
  }

  /** The greatest key is one of the keys and no key is greater. */
  lemma {:induction false} GreatestIsMaximum(keys: seq<string>)
    requires |keys| > 0
    ensures Greatest(keys) in keys
    ensures forall k :: k in keys ==> k == Greatest(keys) || Text.LexLess(k, Greatest(keys))
  {
    if |keys| > 1 {
      var init := keys[..|keys| - 1];
      var x := keys[|keys| - 1];
      GreatestIsMaximum(init);
      var g := Greatest(init);
      assert keys == init + [x];
      if Text.LexLess(g, x) {
        forall k | k in init
          ensures k == x || Text.LexLess(k, x)
        {
          if k != g {
            Text.LexTransitive(k, g, x);
          }
        }
      } else if x != g {
        Text.LexTotal(x, g);
      }
    }
  }

  function Dates(content: Content): seq<string> {
    seq(|content|, i requires 0 <= i < |content| => content[i].0)
  }

  /** `harvest`: a failed download returns False; with `latest` an empty object has no first
      element; otherwise one item per selected triple, the first missing reading aborting. */
  function Harvest(reply: Selection.Reply<Content>, stations: set<string>, latest: bool)
    : Result<Gathered<seq<Item>>, Crash>
  {
    if Selection.Download(reply).Failure? then Success(NoData)
    else
      var content := reply.body;
      if latest && |content| == 0 then Failure(IndexError(0))
      else
        var last := if latest then Greatest(Dates(content)) else "";
        match Results.MapAll(Selected(content, stations, latest, last), ReadStep)
        case Failure(e) => Failure(e)
        case Success(items) => Success(Fetched(items))
  }

  /** What a completed harvest delivers: with `latest`, only the greatest date; every item is a
      registered station with a non-empty record at a date of the object, once per such pair. */
  lemma HarvestSelection(reply: Selection.Reply<Content>, stations: set<string>, latest: bool)
    requires Harvest(reply, stations, latest).Success? && Harvest(reply, stations, latest).value.Fetched?
    ensures var items := Harvest(reply, stations, latest).value.payload;
      var content := reply.body;
      var last := if latest then Greatest(Dates(content)) else "";
      var triples := Selected(content, stations, latest, last);
      |items| == |triples| &&
      forall k :: 0 <= k < |items| ==> Success(items[k]) == ReadItem(triples[k].0, triples[k].1, triples[k].2)
    ensures forall item :: item in Harvest(reply, stations, latest).value.payload ==>
      item.id in stations &&
      (latest ==> item.dateObserved == Greatest(Dates(reply.body)) &&
                  forall d :: d in Dates(reply.body) ==> d == item.dateObserved || Text.LexLess(d, item.dateObserved))
  {
    var content := reply.body;
    var last := if latest then Greatest(Dates(content)) else "";
    var triples := Selected(content, stations, latest, last);
    var items := Harvest(reply, stations, latest).value.payload;
    ItemsMatchTriples(triples, items);
    if latest {
      GreatestIsMaximum(Dates(content));
    }
    forall item | item in items
      ensures item.id in stations && (latest ==> item.dateObserved == last)
    {
      var k :| 0 <= k < |items| && items[k] == item;
      SelectedTriple(content, stations, latest, last, triples[k]);
    }
  }

  /** Item k is read from triple k. */
  lemma ItemsMatchTriples(triples: seq<(string, string, map<string, Json>)>, items: seq<Item>)
    requires Results.MapAll(triples, ReadStep) == Success(items)
    ensures |items| == |triples|
    ensures forall k :: 0 <= k < |items| ==> Success(items[k]) == ReadItem(triples[k].0, triples[k].1, triples[k].2)
    ensures forall k :: 0 <= k < |items| ==> items[k].id == triples[k].1 && items[k].dateObserved == triples[k].0
  {
    Results.MapAllSuccess(triples, ReadStep);
  }

  /** A selected triple names a registered station and, with `latest`, the chosen date. */
  lemma SelectedTriple(content: Content, stations: set<string>, latest: bool, last: string,
                       t: (string, string, map<string, Json>))
    requires t in Selected(content, stations, latest, last)
    ensures t.1 in stations && (latest ==> t.0 == last)
  {
    SelectedMembers(content, stations, latest, last);
  }

  /** `harvest`, with its nested loops over dates and stations. */
  method HarvestObservations(reply: Selection.Reply<Content>, stations: set<string>, latest: bool)
    returns (r: Result<Gathered<seq<Item>>, Crash>)
    ensures r == Harvest(reply, stations, latest)
  {
    if Selection.Download(reply).Failure? {
      return Success(NoData);
    }
    var content := reply.body;
    var last := "";
    if latest {
      if |content| == 0 {
        return Failure(IndexError(0));
      }
      last := Greatest(Dates(content));
    }
    var items := SelectionLoop(content, stations, latest, last, ReadStep);
    match items
    case Failure(e) => r := Failure(e);
    case Success(s) => r := Success(Fetched(s));
  }

  /** The loops of `harvest`, with the item reader as a parameter. */
  method SelectionLoop<E>(content: Content, stations: set<string>, latest: bool, last: string,
                          build: ((string, string, map<string, Json>)) -> Result<E, Crash>)
    returns (r: Result<seq<E>, Crash>)
    ensures r == Results.MapAll(Selected(content, stations, latest, last), build)
  {
    var result: seq<E> := [];
    for n := 0 to |content|
      invariant Results.MapAll(Selected(content[..n], stations, latest, last), build) == Success(result)
    {
      var before := Selected(content[..n], stations, latest, last);
      SelectedStep(content, n, stations, latest, last);
      var date := content[n].0;
      if latest && date != last {
        continue;
      }
      var records := content[n].1;
      for m := 0 to |records|
        invariant Results.MapAll(before + DaySelected(date, records[..m], stations), build) == Success(result)
      {
        var sofar := DaySelected(date, records[..m], stations);
        DaySelectedStep(date, records, m, stations);
        var code := records[m].0;
        if code !in stations || !Nonempty(records[m].1) {
          continue;
        }
        var t := (date, code, records[m].1.value);
        Collections.AppendAssoc(before, sofar, [t]);
        Results.MapAllSnoc(before + sofar, t, build);
        var e := build(t);
        if e.Failure? {
          SelectionFailureStays(content, n, m, stations, latest, last, build);
          return Failure(e.error);
        }
        result := result + [e.value];
      }
      assert records[..|records|] == records;
    }
    assert content[..|content|] == content;
    r := Success(result);
  }

  /** One more date: its triples when it is processed, none otherwise. */
  lemma SelectedStep(content: Content, n: nat, stations: set<string>, latest: bool, last: string)
    requires n < |content|
    ensures !latest || content[n].0 == last ==> (Selected(content[..n + 1], stations, latest, last) ==
      Selected(content[..n], stations, latest, last) + DaySelected(content[n].0, content[n].1, stations))
    ensures latest && content[n].0 != last ==>
      Selected(content[..n + 1], stations, latest, last) == Selected(content[..n], stations, latest, last)
    ensures Selected(content[..n], stations, latest, last) + DaySelected(content[n].0, content[n].1[..0], stations) ==
      Selected(content[..n], stations, latest, last)
  {
    assert content[..n + 1][..n] == content[..n];
    assert content[n].1[..0] == [];
    assert Selected(content[..n], stations, latest, last) + [] == Selected(content[..n], stations, latest, last);
  }

  /** One more record: its triple when its station is registered and it is non-empty. */
  lemma DaySelectedStep(date: string, records: seq<(string, Record)>, m: nat, stations: set<string>)
    requires m < |records|
    ensures records[m].0 in stations && Nonempty(records[m].1) ==> (DaySelected(date, records[..m + 1], stations) ==
      DaySelected(date, records[..m], stations) + [(date, records[m].0, records[m].1.value)])
    ensures !(records[m].0 in stations && Nonempty(records[m].1)) ==>
      DaySelected(date, records[..m + 1], stations) == DaySelected(date, records[..m], stations)
  {
    assert records[..m + 1][..m] == records[..m];
  }

  /** Once a record fails, the whole harvest fails with that crash. */
  lemma SelectionFailureStays<E>(content: Content, n: nat, m: nat, stations: set<string>, latest: bool, last: string,
                                 build: ((string, string, map<string, Json>)) -> Result<E, Crash>)
    requires n < |content| && m < |content[n].1| && (!latest || content[n].0 == last)
    requires Results.MapAll(Selected(content[..n], stations, latest, last)
                            + DaySelected(content[n].0, content[n].1[..m + 1], stations), build).Failure?
    ensures Results.MapAll(Selected(content, stations, latest, last), build) ==
      Results.MapAll(Selected(content[..n], stations, latest, last)
                     + DaySelected(content[n].0, content[n].1[..m + 1], stations), build)
  {
    var records := content[n].1;
    var tail := DaySelected(content[n].0, records[m + 1..], stations);
    var later := Selected(content[n + 1..], stations, latest, last);
    SelectedSplit(content, n, m, stations, latest, last);
    Results.MapAllFailurePrefix(Selected(content[..n], stations, latest, last)
                                + DaySelected(content[n].0, records[..m + 1], stations), tail + later, build);
  }

  /** The triples up to a record of a processed date, then the rest. */
  lemma SelectedSplit(content: Content, n: nat, m: nat, stations: set<string>, latest: bool, last: string)
    requires n < |content| && m < |content[n].1| && (!latest || content[n].0 == last)
    ensures Selected(content, stations, latest, last) ==
      (Selected(content[..n], stations, latest, last) + DaySelected(content[n].0, content[n].1[..m + 1], stations))
      + (DaySelected(content[n].0, content[n].1[m + 1..], stations) + Selected(content[n + 1..], stations, latest, last))
  {
    var records := content[n].1;
    var earlier := Selected(content[..n], stations, latest, last);
    var later := Selected(content[n + 1..], stations, latest, last);
    var head := DaySelected(content[n].0, records[..m + 1], stations);
    var tail := DaySelected(content[n].0, records[m + 1..], stations);
    SelectedAround(content, n, stations, latest, last);
    DaySelectedSplit(content[n].0, records, m + 1, stations);
    Collections.Regroup(earlier, head, tail, later);
  }

  lemma DaySelectedSplit(date: string, records: seq<(string, Record)>, m: nat, stations: set<string>)
    requires m <= |records|
    ensures DaySelected(date, records, stations) ==
      DaySelected(date, records[..m], stations) + DaySelected(date, records[m..], stations)
  {
    assert records == records[..m] + records[m..];
    DaySelectedConcat(date, records[..m], records[m..], stations);
  }

  /** The triples of a processed date sit between those of the dates before and after it. */
  lemma SelectedAround(content: Content, n: nat, stations: set<string>, latest: bool, last: string)
    requires n < |content| && (!latest || content[n].0 == last)
    ensures Selected(content, stations, latest, last) ==
      Selected(content[..n], stations, latest, last)
      + (DaySelected(content[n].0, content[n].1, stations) + Selected(content[n + 1..], stations, latest, last))
  {
    var before := content[..n];
    var after := content[n + 1..];
    var rest := [content[n]] + after;
    assert content == before + rest;
    SelectedConcat(before, rest, stations, latest, last);
    SelectedConcat([content[n]], after, stations, latest, last);
    SelectedSingle(content[n], stations, latest, last);
  }

  lemma SelectedSingle(day: (string, seq<(string, Record)>), stations: set<string>, latest: bool, last: string)
    ensures Selected([day], stations, latest, last) ==
      if !latest || day.0 == last then DaySelected(day.0, day.1, stations) else []
  {
    assert [day][..0] == [];
  }

  // ---------------------------------------------------------------------------------------
  // prepare_schema
  // ---------------------------------------------------------------------------------------

  /** The record `setup_stations` keeps per station. */
  datatype Station = Station(name: string, coordinates: seq<Json>)

  datatype WeatherObserved = WeatherObserved(
    id: string,
    addressCountry: string,
    addressLocality: string,
    atmosphericPressure: Json,
    dataProvider: string,
    dateObserved: string,
    coordinates: seq<Json>,
    precipitation: Json,
    pressureTendency: Option<Json>,
    relativeHumidity: Json,
    source: string,
    stationCode: string,
    stationName: string,
    temperature: Json,
    windDirection: Option<int>,
    windSpeed: Json)

  /** The entity id: `-latest` with `latest` (one entity per station, overwritten each run),
      else the observation time in UTC. */
  function ObservedId(code: string, dateUtc: string, latest: bool): string {
    IdPrefix + code + "-" + (if latest then "latest" else dateUtc)
  }

  /** `prepare_schema_one`. Every key it tests with `in` is one `harvest` always stores, except
      'pressureTendency', which it never stores: that reading stays null. */
  function Entity(stations: map<string, Station>, clock: Clock, latest: bool, item: Item): Result<WeatherObserved, Crash> {
    var zone := PortugueseZone(item.id, AzoresCodes);
    var dateLocal := clock.utc(zone, LocalTime(item.dateObserved, 0));
    if item.id !in stations then Failure(KeyError(item.id))
    else
      match Float(item.atmosphericPressure)
      case Failure(e) => Failure(e)
      case Success(pressure) =>
        match Float(item.precipitation)
        case Failure(e) => Failure(e)
        case Success(precipitation) =>
          match Float(item.relativeHumidity)
          case Failure(e) => Failure(e)
          case Success(humidity) =>
            match Float(item.temperature)
            case Failure(e) => Failure(e)
            case Success(temperature) =>
              match Float(item.windSpeed)
              case Failure(e) => Failure(e)
              case Success(speed) =>
                Success(WeatherObserved(
                  id := ObservedId(item.id, dateLocal, latest),
                  addressCountry := "PT",
                  addressLocality := stations[item.id].name,
                  atmosphericPressure := pressure,
                  dataProvider := "FIWARE",
                  dateObserved := dateLocal,
                  coordinates := stations[item.id].coordinates,
                  precipitation := precipitation,
                  pressureTendency := None,
                  relativeHumidity := humidity,
                  source := SourceUrl,
                  stationCode := item.id,
                  stationName := stations[item.id].name,
                  temperature := temperature,
                  windDirection := Compass.DecodeObserved(item.windDirection),
                  windSpeed := speed))
  }

  /** An entity carries its station's code, name and coordinates, the observation time in its
      zone converted to UTC, and the decoded wind direction; a null reading aborts. */
  lemma EntityShape(stations: map<string, Station>, clock: Clock, latest: bool, item: Item)
    ensures Entity(stations, clock, latest, item).Success? <==>
      item.id in stations && item.atmosphericPressure != JNull && item.precipitation != JNull &&
      item.relativeHumidity != JNull && item.temperature != JNull && item.windSpeed != JNull
    ensures item.id !in stations ==> Entity(stations, clock, latest, item) == Failure(KeyError(item.id))
    ensures Entity(stations, clock, latest, item).Success? ==>
      var e := Entity(stations, clock, latest, item).value;
      var dateUtc := clock.utc(PortugueseZone(item.id, AzoresCodes), LocalTime(item.dateObserved, 0));
      e.stationCode == item.id && e.stationName == e.addressLocality == stations[item.id].name &&
      e.coordinates == stations[item.id].coordinates && e.dateObserved == dateUtc &&
      e.id == IdPrefix + item.id + (if latest then "-latest" else "-" + dateUtc) &&
      e.windDirection == Compass.DecodeObserved(item.windDirection) && e.pressureTendency.None?
  {
    var dateUtc := clock.utc(PortugueseZone(item.id, AzoresCodes), LocalTime(item.dateObserved, 0));
    ObservedIdShape(item.id, dateUtc, latest);
  }

  lemma ObservedIdShape(code: string, dateUtc: string, latest: bool)
    ensures ObservedId(code, dateUtc, latest) == IdPrefix + code + (if latest then "-latest" else "-" + dateUtc)
  {
    if !latest {
      assert IdPrefix + code + "-" + dateUtc == IdPrefix + code + ("-" + dateUtc);
    }
  }

  /** With `latest`, two stations share an id exactly when they share a code. */
  lemma LatestIdsDistinct(a: string, b: string, dateA: string, dateB: string)
    ensures ObservedId(a, dateA, true) == ObservedId(b, dateB, true) <==> a == b
  {
    var sa := ObservedId(a, dateA, true);
    var sb := ObservedId(b, dateB, true);
    assert a == sa[|IdPrefix|..|sa| - |"-latest"|];
    assert b == sb[|IdPrefix|..|sb| - |"-latest"|];
  }

  function EntityStep(stations: map<string, Station>, clock: Clock, latest: bool): Item -> Result<WeatherObserved, Crash> {
    item => Entity(stations, clock, latest, item)
  }

  /** `prepare_schema`: exactly one entity per item, in order. */
  function PrepareSchema(items: seq<Item>, stations: map<string, Station>, clock: Clock, latest: bool)
    : (r: Result<seq<WeatherObserved>, Crash>)
    ensures r.Success? <==> forall k :: 0 <= k < |items| ==> Entity(stations, clock, latest, items[k]).Success?
    ensures r.Success? ==> (|r.value| == |items| &&
      forall k :: 0 <= k < |items| ==> Success(r.value[k]) == Entity(stations, clock, latest, items[k]))
  {
    Results.MapAllSuccess(items, EntityStep(stations, clock, latest));
    Results.MapAll(items, EntityStep(stations, clock, latest))
  }

  /** One pass of the main loop as written: `prepare_schema` is given whatever `harvest`
      returned, so a failed download reaches the loop over `False`. */
  function Cycle(harvested: Gathered<seq<Item>>, stations: map<string, Station>, clock: Clock, latest: bool)
    : Result<seq<WeatherObserved>, Crash>
  {
    match harvested
    case NoData => Failure(TypeError)
    case Fetched(items) => PrepareSchema(items, stations, clock, latest)
  }

  /** A failed download crashes the service loop with a TypeError instead of skipping a pass. */
  lemma FailedDownloadCrashes(reply: Selection.Reply<Content>, stations: map<string, Station>, clock: Clock, latest: bool)
    requires Selection.Download(reply).Failure?
    ensures Harvest(reply, stations.Keys, latest) == Success(NoData)
    ensures Cycle(Harvest(reply, stations.Keys, latest).value, stations, clock, latest) == Failure(TypeError)
  {
  }

  /** Every harvested item has a registered station, so no entity fails on the lookup. */
  lemma HarvestedStationsKnown(reply: Selection.Reply<Content>, stations: map<string, Station>, clock: Clock, latest: bool)
    requires Harvest(reply, stations.Keys, latest).Success? && Harvest(reply, stations.Keys, latest).value.Fetched?
    ensures forall item :: item in Harvest(reply, stations.Keys, latest).value.payload ==>
      Entity(stations, clock, latest, item) != Failure(KeyError(item.id))
  {
    HarvestSelection(reply, stations.Keys, latest);
    forall item | item in Harvest(reply, stations.Keys, latest).value.payload
      ensures Entity(stations, clock, latest, item) != Failure(KeyError(item.id))
    {
      assert item.id in stations.Keys;
    }
  }

  // ---------------------------------------------------------------------------------------
  // setup_stations
  // ---------------------------------------------------------------------------------------

  /** A feature of `obs-surface.geojson`. */
  datatype Feature = Feature(idEstacao: int, localEstacao: string, coordinates: seq<Json>)

  /** Every feature with its record: `str(idEstacao)` as code, the sanitized name, the
      coordinates as given. */
  function Records(features: seq<Feature>): (r: seq<(string, Station)>)
    ensures |r| == |features|
    ensures forall k :: 0 <= k < |r| ==>
      r[k] == (Text.IntToString(features[k].idEstacao), Station(Text.Sanitize(features[k].localEstacao), features[k].coordinates))
  {
    seq(|features|, k requires 0 <= k < |features| =>
      (Text.IntToString(features[k].idEstacao), Station(Text.Sanitize(features[k].localEstacao), features[k].coordinates)))
  }

  /** `setup_stations`: download the station list (fatal when it fails), keep the admitted
      stations, with the include-count check. */
  method SetupStations(download: Selection.Reply<seq<Feature>>, limits: Selection.Limits)
    returns (r: Result<map<string, Station>, Exit>)
    ensures r.Failure? ==> r.error == Exit(1)
    ensures r.Failure? <==>
      (Selection.Download(download).Failure? ||
       (limits.included.Some? &&
        |Selection.Kept(Records(Selection.Download(download).value), limits)| != |limits.included.value|))
    ensures r.Success? ==> r.value == Selection.Kept(Records(Selection.Download(download).value), limits)
  {
    var content := Selection.Download(download);
    if content.Failure? {
      return Failure(content.error);
    }
    r := Selection.SelectStations(Records(content.value), limits);
  }

  /** A selected station is admitted, keyed by the decimal rendering of its IPMA id, with a
      sanitized name. */
  lemma SelectedRecords(features: seq<Feature>, limits: Selection.Limits, code: string)
    requires code in Selection.Kept(Records(features), limits)
    ensures Selection.Admitted(code, limits)
    ensures exists k :: 0 <= k < |features| && Text.ParseInt(code) == Some(features[k].idEstacao) &&
                        Selection.Kept(Records(features), limits)[code] ==
                          Station(Text.Sanitize(features[k].localEstacao), features[k].coordinates)
    ensures Text.Clean(Selection.Kept(Records(features), limits)[code].name)
  {
    var entries := Records(features);
    Selection.KeptKeys(entries, limits, code);
    Selection.KeptFrom(entries, limits);
    var k :| 0 <= k < |entries| && entries[k] == (code, Selection.Kept(entries, limits)[code]);
    Text.IntToStringRoundTrip(features[k].idEstacao);
  }
}
