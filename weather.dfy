/** The two weather helpers of `src/utils.ts` (repeated in `src/App.tsx`): the icon
    table for OpenWeather icon codes and the pseudo-random weather shown on calendar days. */
module Weather {

  const Sun := "\U{2600}\U{FE0F}"
  const Moon := "\U{1F319}"
  const SunBehindCloud := "\U{26C5}"
  const Cloud := "\U{2601}\U{FE0F}"
  const RainCloud := "\U{1F327}\U{FE0F}"
  const SunRain := "\U{1F326}\U{FE0F}"
  const Thunder := "\U{26C8}\U{FE0F}"
  const Snowflake := "\U{2744}\U{FE0F}"
  const Fog := "\U{1F32B}\U{FE0F}"
  const SunSmallCloud := "\U{1F324}\U{FE0F}"

  /** The `icons` object of `getWeatherIcon`: eighteen codes, a day and a night
      variant of nine conditions. */
  const IconTable: map<string, string> := map[
    "01d" := Sun, "01n" := Moon, "02d" := SunBehindCloud, "02n" := Cloud,
    "03d" := Cloud, "03n" := Cloud, "04d" := Cloud, "04n" := Cloud,
    "09d" := RainCloud, "09n" := RainCloud, "10d" := SunRain, "10n" := RainCloud,
    "11d" := Thunder, "11n" := Thunder, "13d" := Snowflake, "13n" := Snowflake,
    "50d" := Fog, "50n" := Fog]

  /** The glyph `getWeatherIcon` falls back to. */
  const DefaultIcon := SunSmallCloud

  /** `icons[iconCode] || '🌤️'`: every table glyph is a non-empty string, so the
      lookup falls back exactly for codes outside the table. */
  function WeatherIcon(iconCode: string): (r: string)
    ensures iconCode in IconTable ==> r == IconTable[iconCode]
    ensures r == DefaultIcon <==> iconCode !in IconTable
  {
    if iconCode in IconTable && IconTable[iconCode] != "" then IconTable[iconCode] else DefaultIcon
  }

  /** The glyph cycle of `getWeatherForDate`. */
  const Weathers: seq<string> := [Sun, SunBehindCloud, RainCloud, Cloud, SunSmallCloud]

  /** The temperature cycle of `getWeatherForDate`. */
  const Temps: seq<int> := [18, 22, 25, 28, 20, 15, 30]

  datatype DayWeather = DayWeather(icon: string, temp: int)

  /** `getWeatherForDate(date)` for `date.getDate() == day` and `date.getMonth() == month`. */
  function WeatherForDate(day: nat, month: nat): (r: DayWeather)
    ensures r.icon == Weathers[(day + month) % 5]
    ensures r.temp == Temps[(day + month) % 7]
    ensures r.temp in {15, 18, 20, 22, 25, 28, 30}
  {
    var hash := day + month;
    DayWeather(Weathers[hash % |Weathers|], Temps[hash % |Temps|])
  }

  /** The result depends on the day and the month only through their sum, and repeats
      every 35, the least common multiple of the two cycle lengths. */
  lemma WeatherForDateBySum(day: nat, month: nat, day': nat, month': nat)
    requires (day + month) % 35 == (day' + month') % 35
    ensures WeatherForDate(day, month) == WeatherForDate(day', month')
  {
    CycleResidues(day + month);
    CycleResidues(day' + month');
  }

  /** Both cycle positions are determined by the position in the 35-cycle. */
  lemma CycleResidues(h: nat)
    ensures h % 5 == (h % 35) % 5 && h % 7 == (h % 35) % 7
  {
    var q, r := h / 35, h % 35;
    assert h == 35 * q + r;
    RemainderUnique5(h, 7 * q + r / 5, r % 5);
    RemainderUnique7(h, 5 * q + r / 7, r % 7);
  }

  lemma RemainderUnique5(h: int, a: int, b: int)
    requires h == 5 * a + b && 0 <= b < 5
    ensures h % 5 == b
  {
  }

  lemma RemainderUnique7(h: int, a: int, b: int)
    requires h == 7 * a + b && 0 <= b < 7
    ensures h % 7 == b
  {
  }
}
