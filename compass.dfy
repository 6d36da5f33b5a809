/** `decode_wind_direction`: the wind direction a feed reports, turned into the angle the
    WeatherForecast and WeatherObserved data models use (north 180, then 45 degrees less per
    compass point clockwise, north-east -135). */
module Compass {
  import opened Wrappers
  import opened JsonValue
  import Text

  /** The eight angles a decoded direction can take. */
  const Angles: set<int> := {180, 135, 90, 45, 0, -45, -90, -135}

  /** `decode_wind_direction` of the Spanish scripts: AEMET's Spanish names and
      abbreviations (`dict.get`, so None when unknown); calm has no direction. */
  function DecodeSpanish(direction: string): Option<int> {
    match direction
    case "Norte" => Some(180)
    case "Noroeste" => Some(135)
    case "Oeste" => Some(90)
    case "Suroeste" => Some(45)
    case "Sudoeste" => Some(45)
    case "Sur" => Some(0)
    case "Sureste" => Some(-45)
    case "Sudeste" => Some(-45)
    case "Este" => Some(-90)
    case "Nordeste" => Some(-135)
    case "Noreste" => Some(-135)
    case "N" => Some(180)
    case "NO" => Some(135)
    case "O" => Some(90)
    case "SO" => Some(45)
    case "S" => Some(0)
    case "SE" => Some(-45)
    case "E" => Some(-90)
    case "NE" => Some(-135)
    case "Calma" => None
    case "C" => None
    case _ => None
  }

  /** The names the Spanish table gives an angle. */
  const SpanishNames: set<string> := {
    "Norte", "Noroeste", "Oeste", "Suroeste", "Sudoeste", "Sur", "Sureste", "Sudeste", "Este",
    "Nordeste", "Noreste", "N", "NO", "O", "SO", "S", "SE", "E", "NE"}

  /** `decode_wind_direction` of the Portuguese scripts: IPMA's digit codes 9 (north) down to
      2 (north-east), and English abbreviations. */
  function DecodePortuguese(direction: string): Option<int> {
    match direction
    case "9" => Some(180)
    case "8" => Some(135)
    case "7" => Some(90)
    case "6" => Some(45)
    case "5" => Some(0)
    case "4" => Some(-45)
    case "3" => Some(-90)
    case "2" => Some(-135)
    case "N" => Some(180)
    case "NW" => Some(135)
    case "W" => Some(90)
    case "SW" => Some(45)
    case "S" => Some(0)
    case "SE" => Some(-45)
    case "E" => Some(-90)
    case "NE" => Some(-135)
    case _ => None
  }

  const PortugueseNames: set<string> := {
    "9", "8", "7", "6", "5", "4", "3", "2", "N", "NW", "W", "SW", "S", "SE", "E", "NE"}

  /** A decoded Spanish direction is one of the eight angles; None comes exactly from calm and
      from names outside the table. */
  lemma SpanishRange(direction: string)
    ensures DecodeSpanish(direction).Some? ==> DecodeSpanish(direction).value in Angles
    ensures DecodeSpanish(direction) == None <==>
      direction !in SpanishNames
  {
  }

  /** Synonyms and abbreviations share the angle of the full name. */
  lemma SpanishSynonyms()
    ensures DecodeSpanish("Suroeste") == DecodeSpanish("Sudoeste") == DecodeSpanish("SO")
    ensures DecodeSpanish("Sureste") == DecodeSpanish("Sudeste") == DecodeSpanish("SE")
    ensures DecodeSpanish("Nordeste") == DecodeSpanish("Noreste") == DecodeSpanish("NE")
    ensures DecodeSpanish("Norte") == DecodeSpanish("N") && DecodeSpanish("Noroeste") == DecodeSpanish("NO")
    ensures DecodeSpanish("Oeste") == DecodeSpanish("O") && DecodeSpanish("Sur") == DecodeSpanish("S")
    ensures DecodeSpanish("Este") == DecodeSpanish("E")
  {
  }

  lemma PortugueseRange(direction: string)
    ensures DecodePortuguese(direction).Some? ==> DecodePortuguese(direction).value in Angles
    ensures DecodePortuguese(direction) == None <==> direction !in PortugueseNames
  {
  }

  /** Digit d stands for the angle 45 * (d - 5), and the abbreviation of the same compass point
      decodes alike. */
  lemma {:induction false} PortugueseDigits(d: nat)
    requires 2 <= d <= 9
    ensures DecodePortuguese([Text.DigitChar(d)]) == Some(45 * (d - 5))
    ensures DecodePortuguese([Text.DigitChar(d)]) == DecodePortuguese(["N", "NW", "W", "SW", "S", "SE", "E", "NE"][9 - d])
  {
    var c := Text.DigitChar(d);
    if d == 9 { assert [c] == "9"; }
    else if d == 8 { assert [c] == "8"; }
    else if d == 7 { assert [c] == "7"; }
    else if d == 6 { assert [c] == "6"; }
    else if d == 5 { assert [c] == "5"; }
    else if d == 4 { assert [c] == "4"; }
    else if d == 3 { assert [c] == "3"; }
    else { assert [c] == "2"; }
  }

  /** The WeatherForecast harvester looks the raw value up in the string-keyed table: only a
      string can match, so the integer 9 is not north there. */
  function DecodeForecast(value: Json): Option<int> {
    match value
    case JStr(s) => DecodePortuguese(s)
    case _ => None
  }

  /** The WeatherObserved harvester decodes `str(value)`: an int code is rendered in decimal
      first (so 9 and "9" both mean north), while a float, a bool or null renders as text that
      is not in the table ("9.0", "True", "None"). */
  function DecodeObserved(value: Json): (r: Option<int>)
    ensures value.JInt? ==> r == DecodePortuguese(Text.IntToString(value.i))
    ensures value.JStr? ==> r == DecodePortuguese(value.s)
    ensures !value.JInt? && !value.JStr? ==> r == None
  {
    match value
    case JInt(i) => DecodePortuguese(Text.IntToString(i))
    case JStr(s) => DecodePortuguese(s)
    case _ => None
  }

  /** An int code reads as the digit it renders to: integer 9 is north. */
  lemma {:induction false} ObservedIntCodes(d: nat)
    requires 2 <= d <= 9
    ensures DecodeObserved(JInt(d)) == Some(45 * (d - 5))
  {
    assert Text.IntToString(d) == [Text.DigitChar(d)];
    PortugueseDigits(d);
  }

  /** The two Portuguese harvesters agree on every string and disagree on integer codes: the
      forecast one drops them, the observed one reads them as their digits. */
  lemma {:induction false} ForecastIgnoresIntCodes(value: Json)
    ensures value.JStr? ==> DecodeForecast(value) == DecodeObserved(value)
    ensures value.JInt? ==> DecodeForecast(value) == None
    ensures value.JInt? && 2 <= value.i <= 9 ==> DecodeObserved(value) == Some(45 * (value.i - 5))
  {
    if value.JInt? && 2 <= value.i <= 9 {
      ObservedIntCodes(value.i);
    }
  }
}
