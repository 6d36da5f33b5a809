/** Time stamps as the harvesters handle them, with the calendar and time-zone arithmetic of
    `datetime`/`pytz` kept abstract: a `Clock` supplies the renderings. */
module Time {

  /** The civil zones the scripts localize to; `HostLocal` is the zone of the machine, which
      `astimezone` assumes for a naive datetime. */
  datatype Zone = EuropeMadrid | AtlanticCanary | EuropeLisbon | AtlanticAzores | HostLocal

  /** The zone of an IPMA location or station: Azores time for the codes listed in `azores`,
      Lisbon time for every other code. */
  function PortugueseZone(code: string, azores: seq<string>): (z: Zone)
    ensures z == AtlanticAzores <==> code in azores
    ensures z == EuropeLisbon <==> code !in azores
  {
    if code in azores then AtlanticAzores else EuropeLisbon
  }

  /** The wall-clock instant `stamp` (a date or date-time as the feed writes it) plus `hours`. */
  datatype LocalTime = LocalTime(stamp: string, hours: int)

  /** Renderings of a local instant in a zone: `isoformat()` of the localized value, its
      `strftime('%H:%M:%S%z')`, and `isoformat()` after conversion to UTC. */
  datatype Clock = Clock(
    iso: (Zone, LocalTime) -> string,
    short: (Zone, LocalTime) -> string,
    utc: (Zone, LocalTime) -> string)
}
