/** The AEMET registry file (`stations.json`) shared by the Spanish scripts: weather stations,
    municipalities, provinces and autonomous communities. */
module SpanishRegistry {
  import opened Wrappers
  import opened JsonValue

  datatype Community = Community(name: string, timezone: string)

  /** A province; `kind` '3' marks a city with its own status (Ceuta, Melilla). */
  datatype Province = Province(name: string, kind: string, community: string)

  datatype Municipality = Municipality(name: string, province: string)

  /** A weather station: coordinates as written in the file, and its municipality if known. */
  datatype Station = Station(longitude: Json, latitude: Json, municipality: Option<string>)

  /** The file's dictionaries; the two that are iterated keep their order as entry lists. */
  datatype Registry = Registry(
    stations: seq<(string, Station)>,
    municipalities: seq<(string, Municipality)>,
    provinces: map<string, Province>,
    communities: map<string, Community>)

  /** `d[key]` on a dict kept as an entry list: the last entry with that key. */
  function Lookup<V>(entries: seq<(string, V)>, key: string): (r: Option<V>)
    ensures r.Some? <==> exists k :: 0 <= k < |entries| && entries[k].0 == key
    ensures r.Some? ==> exists k :: 0 <= k < |entries| && entries[k] == (key, r.value)
  {
    if entries == [] then None
    else if entries[|entries| - 1].0 == key then Some(entries[|entries| - 1].1)
    else
      var r := Lookup(entries[..|entries| - 1], key);
      assert forall k :: 0 <= k < |entries| - 1 ==> entries[..|entries| - 1][k] == entries[k];
      r
  }

  /** Every reference in the file resolves: a station's municipality, a municipality's
      province, a province's community. The file is produced by the repository's generator. */
  predicate WellFormed(reg: Registry) {
    (forall k :: 0 <= k < |reg.stations| && reg.stations[k].1.municipality.Some? ==>
       Lookup(reg.municipalities, reg.stations[k].1.municipality.value).Some?) &&
    (forall k :: 0 <= k < |reg.municipalities| ==> reg.municipalities[k].1.province in reg.provinces) &&
    (forall p :: p in reg.provinces ==> reg.provinces[p].community in reg.communities)
  }
}
