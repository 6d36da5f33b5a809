/** The NGSI v2 WeatherForecast entity the three forecast harvesters fill from a deep copy of
    their `schema_template`. Readings are kept as the raw values of the feed: the float
    conversions, percentage scaling and wind-speed conversion are outside the model. */
module Forecast {
  import opened Wrappers
  import opened JsonValue

  /** `dayMaximum` / `dayMinimum`: every part stays None unless the script sets it. */
  datatype Extremes = Extremes(feelsLikeTemperature: Option<Json>, temperature: Option<Json>, relativeHumidity: Option<Json>)

  datatype WeatherForecast = WeatherForecast(
    id: string,
    addressCountry: string,
    addressLocality: string,
    postalCode: string,
    dateIssued: string,
    dateRetrieved: string,
    dataProvider: string,
    source: string,
    dayMaximum: Extremes,
    dayMinimum: Extremes,
    feelsLikeTemperature: Option<Json>,
    precipitationProbability: Option<Json>,
    relativeHumidity: Option<Json>,
    temperature: Option<Json>,
    validFrom: string,
    validTo: string,
    validity: string,
    weatherType: Option<string>,
    windDirection: Option<int>,
    windSpeed: Option<Json>)

  /** `dataProvider` of every template. */
  const DataProvider := "FIWARE"

  /** `validity`: the interval from `validFrom` to `validTo` in local ISO form. */
  function Validity(fromIso: string, toIso: string): (v: string)
    ensures |v| == |fromIso| + 1 + |toIso|
    ensures v[..|fromIso|] == fromIso && v[|fromIso|] == '/' && v[|fromIso| + 1..] == toIso
  {
    fromIso + "/" + toIso
  }
}
