/** Weather categorisation (weather_service.py, get_weather_category): a WMO
    present-weather code (code table 4677 of the WMO Manual on Codes, WMO-No. 306,
    as Open-Meteo reports it) becomes one of four labels. */
module Weather {

  datatype WeatherCategory = Sunny | Cloudy | Rainy | Snowy {
    function Label(): string {
      match this
      case Sunny => "Sunny"
      case Cloudy => "Cloudy"
      case Rainy => "Rainy"
      case Snowy => "Snowy"
    }
  }

  /** Mainly clear, partly cloudy, overcast, fog, depositing rime fog. */
  const CloudyCodes: set<int> := {1, 2, 3, 45, 48}

  /** Snow fall, snow grains, snow showers. */
  const SnowyCodes: set<int> := {71, 73, 75, 77, 85, 86}

  /** Code 0 (clear sky) is Sunny, the cloud and fog codes Cloudy, the snow codes
      Snowy, and every other code (drizzle, rain, thunderstorm, and codes outside
      the table) Rainy. */
  function GetWeatherCategory(code: int): (c: WeatherCategory)
    ensures c == Sunny <==> code == 0
    ensures c == Cloudy <==> code in CloudyCodes
    ensures c == Snowy <==> code in SnowyCodes
    ensures c == Rainy <==> code != 0 && code !in CloudyCodes && code !in SnowyCodes
  {
    if code == 0 then Sunny
    else if code in [1, 2, 3, 45, 48] then Cloudy
    else if code in [71, 73, 75, 77, 85, 86] then Snowy
    else Rainy
  }

  /** The three named code groups do not overlap, so the order of the tests does not
      matter. */
  lemma CodeGroupsDisjoint()
    ensures 0 !in CloudyCodes && 0 !in SnowyCodes && CloudyCodes * SnowyCodes == {}
  {
  }

  /** Drizzle (51-57), rain (61-67), rain showers (80-82) and thunderstorm (95-99)
      codes are all Rainy. */
  lemma PrecipitationCodesAreRainy(code: int)
    requires 51 <= code <= 57 || 61 <= code <= 67 || 80 <= code <= 82 || 95 <= code <= 99
    ensures GetWeatherCategory(code) == Rainy
  {
  }
}
