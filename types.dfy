/** The records the resolver and the screen exchange (the interfaces of `src/types.ts`).
    Weather measurements are carried as opaque numbers. */
module Types {

  datatype Option<T> = None | Some(value: T)

  /** `WeatherCondition`: a short label, a description and an icon code such as "01d". */
  datatype Condition = Condition(main: string, description: string, icon: string)

  /** `WeatherMain`. */
  datatype Reading = Reading(temp: real, feelsLike: real, humidity: real, pressure: real)

  /** `WeatherData`: `wind.speed` and `sys.country` are flattened into fields; the
      optional `dt` is never set by the bundled data and is not carried. */
  datatype WeatherData = WeatherData(
    name: string, main: Reading, weather: seq<Condition>, windSpeed: real, sysCountry: string)

  /** `CityData` without its optional `score` and `matchType`: a catalogue record. */
  datatype CityData = CityData(
    name: string, main: Reading, weather: seq<Condition>, windSpeed: real, sysCountry: string,
    country: string, region: string, aliases: seq<string>)

  /** One property of the catalogue object: its key and its record, in declaration order. */
  datatype Entry = Entry(key: string, city: CityData)

  /** The six values `matchType` takes. */
  datatype MatchType = Exact | ExactAlias | Partial | PartialAlias | FuzzyName | FuzzyAlias
  {
    /** The string the source stores in `matchType`. */
    function Tag(): string {
      match this
      case Exact => "exact"
      case ExactAlias => "exact_alias"
      case Partial => "partial"
      case PartialAlias => "partial_alias"
      case FuzzyName => "fuzzy_name"
      case FuzzyAlias => "fuzzy_alias"
    }

    predicate IsExact() { this == Exact || this == ExactAlias }
    predicate IsPartial() { this == Partial || this == PartialAlias }
    predicate IsFuzzy() { this == FuzzyName || this == FuzzyAlias }
  }

  /** A search result: the catalogue record spread with `score` and `matchType`. */
  datatype ScoredCity = ScoredCity(city: CityData, score: real, matchType: MatchType)

  /** `Event`: `type` names one of the event kinds of the calendar. */
  datatype Event = Event(time: string, title: string, kind: string)

  /** `ForecastItem`: `dt` in seconds since the epoch. */
  datatype ForecastItem = ForecastItem(dt: real, temp: real, weather: seq<Condition>)

  /** `EventType`: how an event kind is shown (`labelText` is the source's `label`). */
  datatype EventType = EventType(labelText: string, color: string, bgOpacity: string, icon: string)

  /** `ApiMode`. */
  datatype ApiMode = Demo | Live

  /** What the screen shows as current weather: the plain sample or API payload, or a
      resolved catalogue record carrying its score and match type. */
  datatype Shown = Plain(data: WeatherData) | Resolved(result: ScoredCity)
}
