/** The screen component of `src/WeatherApp.tsx` (and of the older monolith
    `src/App.tsx`, whose handlers are the same): its React state as the fields of a
    class, and each event handler as a method that updates them. A lookup runs to
    completion in one step; the 800 ms delay and the network request are not modelled,
    and the answer of the weather API is a parameter. */
module App {
  import opened Types
  import opened Text
  import opened Resolver
  import opened Catalogue

  const NotFoundMessage := "都市が見つかりませんでした。別の都市名や表記で試してみてください。"
  const EmptyQueryMessage := "都市名を入力してください"
  const InvalidKeyMessage := "有効なAPIキーを入力してください"
  const MissingKeyMessage := "APIキーが設定されていません"
  const FallbackMessage := "天気データの取得に失敗しました。"

  /** The recent-search list keeps at most this many names. */
  const HistoryCap := 5
  /** The live forecast keeps at most this many items. */
  const ForecastCap := 8

  const InitialHistory: seq<string> := ["Tokyo", "Osaka"]
  const BlankEvent := Event("", "", "personal")
  const InitialEvents: map<string, seq<Event>> := map[
    "2025-09-22" := [Event("10:00", "会議", "work"), Event("18:00", "ジム", "workout")],
    "2025-09-25" := [Event("14:00", "歯医者", "personal"), Event("19:00", "チームディナー", "company")],
    "2025-09-28" := [Event("19:00", "飲み会", "social"), Event("07:00", "ランニング", "workout")]]

  // ---------------------------------------------------------------------------
  // The recent-search list

  /** `s.filter(item => item !== x)`. */
  function Without(s: seq<string>, x: string): (r: seq<string>)
    ensures |r| <= |s|
    ensures forall y :: y in r <==> y in s && y != x
  {
    if s == [] then []
    else if s[0] == x then Without(s[1..], x)
    else [s[0]] + Without(s[1..], x)
  }

  /** Filtering drops every copy of `x` and keeps every copy of everything else. */
  lemma {:induction false} WithoutMultiset(s: seq<string>, x: string)
    ensures multiset(Without(s, x)) == multiset(s)[x := 0]
    decreases |s|
  {
    if s != [] {
      assert s == [s[0]] + s[1..];
      WithoutMultiset(s[1..], x);
    }
  }

  /** `a` is `b` with some elements removed, the rest in their original order. */
  predicate Subsequence<T(==)>(a: seq<T>, b: seq<T>)
    decreases |b|
  {
    if b == [] then a == []
    else (a != [] && a[0] == b[0] && Subsequence(a[1..], b[1..])) || Subsequence(a, b[1..])
  }

  lemma {:induction false} EmptySubsequence<T>(b: seq<T>)
    ensures Subsequence([], b)
    decreases |b|
  {
    if b != [] {
      EmptySubsequence(b[1..]);
    }
  }

  /** A prefix of a subsequence is a subsequence. */
  lemma {:induction false} PrefixSubsequence<T>(a: seq<T>, b: seq<T>, n: nat)
    requires Subsequence(a, b) && n <= |a|
    ensures Subsequence(a[..n], b)
    decreases |b|
  {
    if b == [] {
    } else if a != [] && a[0] == b[0] && Subsequence(a[1..], b[1..]) {
      if n == 0 {
        EmptySubsequence(b);
      } else {
        PrefixSubsequence(a[1..], b[1..], n - 1);
        assert a[..n][1..] == a[1..][..n - 1];
      }
    } else {
      PrefixSubsequence(a, b[1..], n);
    }
  }

  /** Filtering keeps the order of what it keeps. */
  lemma {:induction false} WithoutSubsequence(s: seq<string>, x: string)
    ensures Subsequence(Without(s, x), s)
    decreases |s|
  {
    if s != [] {
      WithoutSubsequence(s[1..], x);
      if s[0] != x {
        assert Without(s, x)[1..] == Without(s[1..], x);
      }
    }
  }

  /** Filtering out a name that is absent changes nothing. */
  lemma {:induction false} WithoutAbsent(s: seq<string>, x: string)
    requires x !in s
    ensures Without(s, x) == s
    decreases |s|
  {
    if s != [] {
      assert x !in s[1..];
      WithoutAbsent(s[1..], x);
    }
  }

  /** No name occurs twice. */
  predicate NoDup(s: seq<string>) {
    forall i, j :: 0 <= i < j < |s| ==> s[i] != s[j]
  }

  /** A list headed by `a` has no repeats exactly when its tail has none and does not
      contain `a`. */
  lemma NoDupCons(a: string, t: seq<string>)
    ensures NoDup([a] + t) <==> a !in t && NoDup(t)
  {
    var s := [a] + t;
    if NoDup(s) {
      forall i, j | 0 <= i < j < |t|
        ensures t[i] != t[j]
      {
        assert s[i + 1] == t[i] && s[j + 1] == t[j];
      }
      forall k | 0 <= k < |t|
        ensures t[k] != a
      {
        assert s[0] == a && s[k + 1] == t[k];
      }
    }
    if a !in t && NoDup(t) {
      forall i, j | 0 <= i < j < |s|
        ensures s[i] != s[j]
      {
        if i == 0 {
          assert s[j] == t[j - 1];
        } else {
          assert s[i] == t[i - 1] && s[j] == t[j - 1];
        }
      }
    }
  }

  lemma {:induction false} WithoutNoDup(s: seq<string>, x: string)
    requires NoDup(s)
    ensures NoDup(Without(s, x))
    decreases |s|
  {
    if s != [] {
      assert s == [s[0]] + s[1..];
      NoDupCons(s[0], s[1..]);
      WithoutNoDup(s[1..], x);
      if s[0] != x {
        NoDupCons(s[0], Without(s[1..], x));
      }
    }
  }

  /** `[name, ...history.filter(item => item !== name)].slice(0, 5)`: the name moves to
      the front, no other copy of it stays, and the list is cut at five. Nothing else
      is dropped unless the cut is reached. */
  function PushRecent(history: seq<string>, name: string): (r: seq<string>)
    ensures |r| > 0 && r[0] == name
    ensures |r| <= HistoryCap
    ensures name !in r[1..]
    ensures IsPrefix(r[1..], Without(history, name))
    ensures |r| == HistoryCap || r[1..] == Without(history, name)
  {
    var r := Take([name] + Without(history, name), HistoryCap);
    assert r[1..] == Without(history, name)[..|r| - 1];
    PrefixMembers(Without(history, name), |r| - 1);
    r
  }

  /** The names after the new head keep their previous relative order. */
  lemma PushRecentKeepsOrder(history: seq<string>, name: string)
    ensures Subsequence(PushRecent(history, name)[1..], history)
  {
    var r := PushRecent(history, name);
    WithoutSubsequence(history, name);
    PrefixSubsequence(Without(history, name), history, |r| - 1);
  }

  lemma PrefixMembers(s: seq<string>, n: nat)
    requires n <= |s|
    ensures forall y :: y in s[..n] ==> y in s
  {
    forall y | y in s[..n]
      ensures y in s
    {
      var i :| 0 <= i < n && s[..n][i] == y;
      assert s[i] == y;
    }
  }

  /** A list without repeats stays without repeats. */
  lemma PushRecentNoDup(history: seq<string>, name: string)
    requires NoDup(history)
    ensures NoDup(PushRecent(history, name))
  {
    var r := PushRecent(history, name);
    WithoutNoDup(history, name);
    forall i, j | 0 <= i < j < |r|
      ensures r[i] != r[j]
    {
      assert r[j] == r[1..][j - 1];
      if i > 0 {
        assert r[i] == r[1..][i - 1];
        assert r[1..][i - 1] == Without(history, name)[i - 1];
        assert r[1..][j - 1] == Without(history, name)[j - 1];
      }
    }
  }

  /** Looking up the same city twice in a row leaves the list as after the first time. */
  lemma PushRecentIdempotent(history: seq<string>, name: string)
    ensures PushRecent(PushRecent(history, name), name) == PushRecent(history, name)
  {
    var r := PushRecent(history, name);
    WithoutAbsent(r[1..], name);
    assert r == [name] + r[1..];
    assert Without(r, name) == r[1..];
  }

  // ---------------------------------------------------------------------------
  // The event map

  /** `updatedEvents[dateKey].push({ ...newEvent })` on a copy of the map: the event is
      appended at the end of that date's list, which is created when absent; the
      lists of the other dates are unchanged. */
  function AppendEvent(events: map<string, seq<Event>>, dateKey: string, e: Event): (r: map<string, seq<Event>>)
    ensures r.Keys == events.Keys + {dateKey}
    ensures forall k :: k in events && k != dateKey ==> r[k] == events[k]
    ensures |r[dateKey]| > 0 && r[dateKey][|r[dateKey]| - 1] == e
    ensures dateKey in events ==> r[dateKey][..|r[dateKey]| - 1] == events[dateKey]
    ensures dateKey !in events ==> r[dateKey] == [e]
  {
    var day := if dateKey in events then events[dateKey] else [];
    assert (day + [e])[..|day|] == day;
    events[dateKey := day + [e]]
  }

  /** Two events added to the same date appear there in the order they were added. */
  lemma AppendEventOrder(events: map<string, seq<Event>>, dateKey: string, e1: Event, e2: Event)
    ensures var r := AppendEvent(AppendEvent(events, dateKey, e1), dateKey, e2);
      r[dateKey] == (if dateKey in events then events[dateKey] else []) + [e1, e2]
  {
    var day := if dateKey in events then events[dateKey] else [];
    var once := AppendEvent(events, dateKey, e1);
    assert once[dateKey] == day + [e1];
    var twice := AppendEvent(once, dateKey, e2);
    assert twice[dateKey] == day + [e1] + [e2];
    assert day + [e1] + [e2] == day + [e1, e2];
  }

  // ---------------------------------------------------------------------------
  // The screen

  /** What the component is built with: the catalogue, whether it has the live API
      path (`src/App.tsx` has it, `src/WeatherApp.tsx` does not), and the time in
      seconds at which `FORECAST_DATA` was evaluated. In `src/WeatherApp.tsx` that is
      when `src/constants.ts` loads; in `src/App.tsx` the constant is rebuilt on every
      render, and this is the clock of the render whose handler runs. */
  datatype Setup = Setup(catalogue: seq<Entry>, liveLookup: bool, forecastSeconds: real)
  {
    /** `FORECAST_DATA`. */
    function Forecast(): (r: seq<ForecastItem>)
      ensures |r| == 4
    {
      ForecastData(forecastSeconds)
    }
  }

  /** What `fetchWeatherFromAPI` delivers: the current weather with the forecast list,
      or an error carrying its message. */
  datatype FetchOutcome = Fetched(weather: WeatherData, forecastList: seq<ForecastItem>) | FetchFailed(message: string)

  /** The field `handleEventChange` edits. */
  datatype EventField = Time | Title | Kind

  /** Every piece of state the handlers read or write (the clock, the calendar month
      and the loading flag's intermediate value are not carried). */
  datatype AppState = AppState(
    weatherData: Option<Shown>, forecastData: Option<seq<ForecastItem>>, loading: bool, error: string,
    searchCity: string, searchSuggestions: seq<ScoredCity>, showSuggestions: bool,
    searchHistory: seq<string>, showCalendar: bool, selectedDate: Option<string>,
    apiMode: ApiMode, apiKey: string, showApiKeyInput: bool,
    newEvent: Event, events: map<string, seq<Event>>)

  /** The `name` of what is shown. */
  function ShownName(d: Shown): string {
    match d
    case Plain(w) => w.name
    case Resolved(c) => c.city.name
  }

  /** `apiMode === 'live' && apiKey`: a non-empty key, even one of spaces only. */
  predicate UsesLiveApi(setup: Setup, s: AppState) {
    setup.liveLookup && s.apiMode == Live && s.apiKey != ""
  }

  /** The `catch` block: `error.message || '天気データの取得に失敗しました。'`, and no data. */
  function Failure(s: AppState, message: string): (r: AppState)
    ensures r.error != "" && (message != "" ==> r.error == message)
    ensures message == "" ==> r.error == FallbackMessage
    ensures r == s.(loading := false, error := r.error, weatherData := None, forecastData := None)
  {
    s.(loading := false, error := if message == "" then FallbackMessage else message,
       weatherData := None, forecastData := None)
  }

  /** The live path of `searchWeatherByName`: the API's answer is shown and its city
      name goes into the history. */
  function LiveResult(s: AppState, outcome: FetchOutcome): AppState {
    if IsBlank(s.apiKey) then Failure(s, MissingKeyMessage)
    else
      match outcome
      case Fetched(weather, list) =>
        s.(loading := false, error := "", weatherData := Some(Plain(weather)),
           forecastData := Some(Take(list, ForecastCap)),
           searchHistory := PushRecent(s.searchHistory, weather.name))
      case FetchFailed(message) => Failure(s, message)
  }

  /** The bundled-data path of `searchWeatherByName`: `findCityByName` on the catalogue. */
  function DemoResult(setup: Setup, s: AppState, cityName: string): AppState {
    var found := Search(cityName, DefaultThreshold, setup.catalogue);
    if found != [] then
      s.(loading := false, error := "", weatherData := Some(Resolved(found[0])),
         forecastData := Some(setup.Forecast()),
         searchHistory := PushRecent(s.searchHistory, found[0].city.name))
    else Failure(s, NotFoundMessage)
  }

  /** The state after `searchWeatherByName(cityName)` has finished. */
  function Lookup(setup: Setup, s: AppState, cityName: string, outcome: FetchOutcome): (r: AppState)
    // only the weather, the forecast, the error and the history change
    ensures r == s.(loading := false, error := r.error, weatherData := r.weatherData,
                    forecastData := r.forecastData, searchHistory := r.searchHistory)
    // the error is cleared exactly when weather is shown
    ensures r.error == "" <==> r.weatherData.Some?
    ensures r.weatherData.None? ==> r.forecastData.None? && r.searchHistory == s.searchHistory
    ensures r.weatherData.Some? ==>
      r.forecastData.Some? && r.searchHistory == PushRecent(s.searchHistory, ShownName(r.weatherData.value))
    // the bundled data: what `findCityByName` returns, or the not-found message
    ensures !UsesLiveApi(setup, s) ==>
      var found := Search(cityName, DefaultThreshold, setup.catalogue);
      && (found != [] ==> r.weatherData == Some(Resolved(found[0])) && r.forecastData == Some(setup.Forecast()))
      && (found == [] ==> r.weatherData.None? && r.error == NotFoundMessage)
    // the live API: a key of spaces only fails before any request
    ensures UsesLiveApi(setup, s) ==>
      && (IsBlank(s.apiKey) ==> r.weatherData.None? && r.error == MissingKeyMessage)
      && (!IsBlank(s.apiKey) && outcome.Fetched? ==>
            r.weatherData == Some(Plain(outcome.weather))
            && r.forecastData == Some(Take(outcome.forecastList, ForecastCap)))
      && (!IsBlank(s.apiKey) && outcome.FetchFailed? ==> r.weatherData.None?)
  {
    if UsesLiveApi(setup, s) then LiveResult(s, outcome) else DemoResult(setup, s, cityName)
  }

  /** The lookup does not depend on the pending values `loading` and `error` take
      while it runs. */
  lemma LookupIgnoresPending(setup: Setup, s: AppState, cityName: string, outcome: FetchOutcome)
    ensures Lookup(setup, s.(loading := true, error := ""), cityName, outcome) == Lookup(setup, s, cityName, outcome)
  {
  }

  /** What holds between handlers: the history is short and without repeats, no lookup
      is half done, and the suggestion list is never open over an empty search box.
      (The list is not always that of the box's text: after a suggestion click, focusing
      the box reopens the list computed for what was typed before.) */
  predicate Consistent(setup: Setup, s: AppState) {
    && |s.searchHistory| <= HistoryCap
    && NoDup(s.searchHistory)
    && !s.loading
    && (s.showSuggestions ==> s.searchCity != "")
  }

  /** Typing into the search box keeps the state consistent. */
  lemma SearchChangeConsistent(setup: Setup, s: AppState, value: string)
    requires Consistent(setup, s)
    ensures Consistent(setup, s.(searchCity := value,
      searchSuggestions := Search(value, DefaultThreshold, setup.catalogue), showSuggestions := !IsBlank(value)))
  {
  }

  lemma LookupConsistent(setup: Setup, s: AppState, cityName: string, outcome: FetchOutcome)
    requires Consistent(setup, s)
    ensures Consistent(setup, Lookup(setup, s, cityName, outcome))
  {
    var r := Lookup(setup, s, cityName, outcome);
    if r.weatherData.Some? {
      PushRecentNoDup(s.searchHistory, ShownName(r.weatherData.value));
    }
  }

  class WeatherApp {
    const setup: Setup
    var weatherData: Option<Shown>
    var forecastData: Option<seq<ForecastItem>>
    var loading: bool
    var error: string
    var searchCity: string
    var searchSuggestions: seq<ScoredCity>
    var showSuggestions: bool
    var searchHistory: seq<string>
    var showCalendar: bool
    var selectedDate: Option<string>
    var apiMode: ApiMode
    var apiKey: string
    var showApiKeyInput: bool
    var newEvent: Event
    var events: map<string, seq<Event>>

    function State(): AppState
      reads this
    {
      AppState(weatherData, forecastData, loading, error, searchCity, searchSuggestions, showSuggestions,
        searchHistory, showCalendar, selectedDate, apiMode, apiKey, showApiKeyInput, newEvent, events)
    }

    predicate Valid()
      reads this
    {
      Consistent(setup, State())
    }

    /** The initial state after the mount effect has put the sample weather and the
        forecast on screen. */
    constructor(setup: Setup)
      ensures this.setup == setup && Valid()
      ensures State() == AppState(Some(Plain(SampleWeatherData)), Some(setup.Forecast()), false, "", "", [], false,
        InitialHistory, false, None, Demo, "", false, BlankEvent, InitialEvents)
    {
      this.setup := setup;
      weatherData := Some(Plain(SampleWeatherData));
      forecastData := Some(setup.Forecast());
      loading := false;
      error := "";
      searchCity := "";
      searchSuggestions := [];
      showSuggestions := false;
      searchHistory := InitialHistory;
      showCalendar := false;
      selectedDate := None;
      apiMode := Demo;
      apiKey := "";
      showApiKeyInput := false;
      newEvent := BlankEvent;
      events := InitialEvents;
    }

    /** `handleSearchChange`: suggestions for non-blank text, none for blank text. */
    method HandleSearchChange(value: string)
      requires Valid()
      modifies this
      ensures Valid()
      ensures State() == old(State()).(searchCity := value,
        searchSuggestions := Search(value, DefaultThreshold, setup.catalogue), showSuggestions := !IsBlank(value))
      ensures IsBlank(value) ==> searchSuggestions == [] && !showSuggestions
    {
      SearchChangeConsistent(setup, State(), value);
      searchCity := value;
      var blank := TrimIsEmpty(value);
      if !blank {
        var suggestions := FuzzySearch(value, DefaultThreshold, setup.catalogue);
        searchSuggestions := suggestions;
        showSuggestions := true;
      } else {
        showSuggestions := false;
        searchSuggestions := [];
      }
    }

    /** The `catch` block of `searchWeatherByName`. */
    method Fail(message: string)
      modifies this
      ensures State() == Failure(old(State()), message).(loading := old(loading))
    {
      error := if message == "" then FallbackMessage else message;
      weatherData := None;
      forecastData := None;
    }

    /** The live branch of `searchWeatherByName`, after the request has answered. */
    method LiveLookup(outcome: FetchOutcome)
      modifies this
      ensures State() == LiveResult(old(State()), outcome)
    {
      var blank := TrimIsEmpty(apiKey);
      if blank {
        Fail(MissingKeyMessage);
        loading := false;
      } else {
        ShowAnswer(outcome);
      }
    }

    /** What the live branch does with the API's answer once the key is non-blank. */
    method ShowAnswer(outcome: FetchOutcome)
      requires !IsBlank(apiKey)
      modifies this
      ensures State() == LiveResult(old(State()), outcome)
    {
      match outcome
      case Fetched(weather, list) =>
        weatherData := Some(Plain(weather));
        forecastData := Some(Take(list, ForecastCap));
        searchHistory := PushRecent(searchHistory, weather.name);
        error := "";
        loading := false;
      case FetchFailed(message) =>
        Fail(message);
        loading := false;
    }

    /** The bundled-data branch of `searchWeatherByName`, after the delay. */
    method DemoLookup(cityName: string)
      modifies this
      ensures State() == DemoResult(setup, old(State()), cityName)
    {
      var cityData := FindCityByName(cityName, setup.catalogue);
      if cityData.Some? {
        ShowResolved(cityData.value);
      } else {
        Fail(NotFoundMessage);
        loading := false;
      }
    }

    /** The bundled branch once `findCityByName` has returned a record. */
    method ShowResolved(found: ScoredCity)
      modifies this
      ensures State() == old(State()).(loading := false, error := "", weatherData := Some(Resolved(found)),
        forecastData := Some(setup.Forecast()), searchHistory := PushRecent(old(searchHistory), found.city.name))
    {
      var forecast, history := setup.Forecast(), PushRecent(searchHistory, found.city.name);
      weatherData, forecastData, searchHistory := Some(Resolved(found)), Some(forecast), history;
      error, loading := "", false;
    }

    /** `searchWeatherByName`, run to completion; `outcome` is what the weather API
        answers when the live path is taken. */
    method SearchWeatherByName(cityName: string, outcome: FetchOutcome)
      requires Valid()
      modifies this
      ensures Valid()
      ensures State() == Lookup(setup, old(State()), cityName, outcome)
    {
      loading := true;
      error := "";
      ghost var pending := State();
      if setup.liveLookup && apiMode == Live && apiKey != "" {
        LiveLookup(outcome);
        assert State() == Lookup(setup, pending, cityName, outcome);
      } else {
        DemoLookup(cityName);
        assert State() == Lookup(setup, pending, cityName, outcome);
      }
      LookupIgnoresPending(setup, old(State()), cityName, outcome);
      LookupConsistent(setup, old(State()), cityName, outcome);
    }

    /** `searchWeather`: a blank search box only sets an error; otherwise the trimmed
        text is looked up. */
    method SearchWeather(outcome: FetchOutcome)
      requires Valid()
      modifies this
      ensures Valid()
      ensures IsBlank(old(searchCity)) ==> State() == old(State()).(error := EmptyQueryMessage)
      ensures !IsBlank(old(searchCity)) ==> State() == Lookup(setup, old(State()), Trim(old(searchCity)), outcome)
    {
      if |Trim(searchCity)| == 0 {
        error := EmptyQueryMessage;
        return;
      }
      SearchWeatherByName(Trim(searchCity), outcome);
    }

    /** `handleSuggestionClick`: the clicked name goes into the search box and is
        looked up as it is. */
    method HandleSuggestionClick(cityName: string, outcome: FetchOutcome)
      requires Valid()
      modifies this
      ensures Valid()
      ensures State() == Lookup(setup, old(State()).(searchCity := cityName, showSuggestions := false), cityName, outcome)
    {
      searchCity := cityName;
      showSuggestions := false;
      SearchWeatherByName(cityName, outcome);
    }

    /** `handleKeyPress`: Enter hides the suggestions and searches; other keys do nothing. */
    method HandleKeyPress(key: string, outcome: FetchOutcome)
      requires Valid()
      modifies this
      ensures Valid()
      ensures key != "Enter" ==> State() == old(State())
      ensures key == "Enter" ==>
        var s := old(State()).(showSuggestions := false);
        (IsBlank(s.searchCity) ==> State() == s.(error := EmptyQueryMessage))
        && (!IsBlank(s.searchCity) ==> State() == Lookup(setup, s, Trim(s.searchCity), outcome))
    {
      if key == "Enter" {
        showSuggestions := false;
        SearchWeather(outcome);
      }
    }

    /** `toggleApiMode`: in demo mode it only opens the key input; in live mode it
        returns to demo mode, closes the input and forgets the key. */
    method ToggleApiMode()
      requires Valid()
      modifies this
      ensures Valid()
      ensures old(apiMode) == Demo ==> State() == old(State()).(showApiKeyInput := true)
      ensures old(apiMode) == Live ==> State() == old(State()).(apiMode := Demo, showApiKeyInput := false, apiKey := "")
    {
      if apiMode == Demo {
        showApiKeyInput := true;
      } else {
        apiMode := Demo;
        showApiKeyInput := false;
        apiKey := "";
      }
    }

    /** The search box's `onFocus`: the list opens again when the box holds text. */
    method HandleFocus()
      requires Valid()
      modifies this
      ensures Valid()
      ensures State() == old(State()).(showSuggestions := old(showSuggestions) || old(searchCity) != "")
    {
      if |searchCity| > 0 {
        showSuggestions := true;
      }
    }

    /** The search box's `onBlur`, once its 150 ms timer has fired: the list closes. */
    method HandleBlur()
      requires Valid()
      modifies this
      ensures Valid()
      ensures State() == old(State()).(showSuggestions := false)
    {
      showSuggestions := false;
    }

    /** The error banner's key button of `src/App.tsx`, shown in live mode while the
        error mentions the API key: it opens the key input. */
    method OpenApiKeyInput()
      requires Valid()
      requires setup.liveLookup && apiMode == Live && Contains(error, "APIキー")
      modifies this
      ensures Valid()
      ensures State() == old(State()).(showApiKeyInput := true)
    {
      showApiKeyInput := true;
    }

    /** `handleApiKeySubmit`: a key with a non-space character switches to live mode;
        a blank key only sets an error. */
    method HandleApiKeySubmit()
      requires Valid()
      modifies this
      ensures Valid()
      ensures !IsBlank(old(apiKey)) ==> State() == old(State()).(apiMode := Live, showApiKeyInput := false, error := "")
      ensures IsBlank(old(apiKey)) ==> State() == old(State()).(error := InvalidKeyMessage)
    {
      var blank := TrimIsEmpty(apiKey);
      if !blank {
        apiMode := Live;
        showApiKeyInput := false;
        error := "";
      } else {
        error := InvalidKeyMessage;
      }
    }

    /** The key input's `onApiKeyChange` (`setApiKey`). */
    method ChangeApiKey(value: string)
      requires Valid()
      modifies this
      ensures Valid()
      ensures State() == old(State()).(apiKey := value)
    {
      apiKey := value;
    }

    /** The key input's `onCancel`. */
    method CancelApiKeyInput()
      requires Valid()
      modifies this
      ensures Valid()
      ensures State() == old(State()).(showApiKeyInput := false)
    {
      showApiKeyInput := false;
    }

    /** `handleCalendarToggle`. */
    method HandleCalendarToggle()
      requires Valid()
      modifies this
      ensures Valid()
      ensures State() == old(State()).(showCalendar := !old(showCalendar))
    {
      showCalendar := !showCalendar;
    }

    /** `handleDateSelect`, with the date already turned into its key by `formatDateKey`. */
    method HandleDateSelect(dateKey: string)
      requires Valid()
      modifies this
      ensures Valid()
      ensures State() == old(State()).(selectedDate := Some(dateKey))
    {
      selectedDate := Some(dateKey);
    }

    /** `handleEventChange`: one field of the event being typed is replaced. */
    method HandleEventChange(field: EventField, value: string)
      requires Valid()
      modifies this
      ensures Valid()
      ensures field == Time ==> State() == old(State()).(newEvent := old(newEvent).(time := value))
      ensures field == Title ==> State() == old(State()).(newEvent := old(newEvent).(title := value))
      ensures field == Kind ==> State() == old(State()).(newEvent := old(newEvent).(kind := value))
    {
      match field
      case Time => newEvent := newEvent.(time := value);
      case Title => newEvent := newEvent.(title := value);
      case Kind => newEvent := newEvent.(kind := value);
    }

    /** `addEvent`: nothing happens without a selected date, a time and a title;
        otherwise the event is added to that date and the form is reset. */
    method AddEvent()
      requires Valid()
      modifies this
      ensures Valid()
      ensures old(selectedDate).None? || old(newEvent).time == "" || old(newEvent).title == "" ==>
        State() == old(State())
      ensures old(selectedDate).Some? && old(newEvent).time != "" && old(newEvent).title != "" ==>
        State() == old(State()).(events := AppendEvent(old(events), old(selectedDate).value, old(newEvent)),
                                 newEvent := BlankEvent)
    {
      if selectedDate.None? || newEvent.time == "" || newEvent.title == "" {
        return;
      }
      var dateKey := selectedDate.value;
      events := AppendEvent(events, dateKey, newEvent);
      newEvent := BlankEvent;
    }
  }
}
