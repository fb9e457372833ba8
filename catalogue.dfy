/** The bundled data of `src/constants.ts`: the city catalogue `CITIES_DATA` in
    declaration order, the sample weather every record is spread from, the forecast,
    the popular-city list and the event kinds; and the invariants of the catalogue
    the resolver relies on. */
module Catalogue {
  import opened Types
  import opened Text
  import opened Resolver

  /** `SAMPLE_WEATHER_DATA`. */
  const SampleMain := Reading(22.0, 25.0, 65.0, 1013.0)
  const SampleWeatherData := WeatherData("Tokyo", SampleMain, [Condition("Clear", "晴れ", "01d")], 3.5, "JP")

  /** `{ ...SAMPLE_WEATHER_DATA, name, country: 'Japan', region, aliases,
      main: { ...SAMPLE_WEATHER_DATA.main, temp } }`. */
  function City(name: string, region: string, aliases: seq<string>, temp: real): (c: CityData)
    ensures c.name == name && c.region == region && c.aliases == aliases && c.main.temp == temp
  {
    CityData(name, SampleMain.(temp := temp), SampleWeatherData.weather, SampleWeatherData.windSpeed,
      SampleWeatherData.sysCountry, "Japan", region, aliases)
  }

  /** The same record with its own `weather` list. */
  function CityWith(name: string, region: string, aliases: seq<string>, temp: real, condition: Condition): (c: CityData)
    ensures c.name == name && c.region == region && c.aliases == aliases && c.weather == [condition]
  {
    City(name, region, aliases, temp).(weather := [condition])
  }

  // 北海道: src/constants.ts:37-45
  const Sapporo := Entry("sapporo", CityWith("Sapporo", "北海道", ["札幌", "さっぽろ", "sapporo"], 8.0,
    Condition("Snow", "雪", "13d")))
  const Hakodate := Entry("hakodate", City("Hakodate", "北海道", ["函館", "はこだて", "hakodate"], 5.0))
  const Asahikawa := Entry("asahikawa", City("Asahikawa", "北海道", ["旭川", "あさひかわ", "asahikawa"], 3.0))
  const Kushiro := Entry("kushiro", City("Kushiro", "北海道", ["釧路", "くしろ", "kushiro"], 6.0))
  const Obihiro := Entry("obihiro", City("Obihiro", "北海道", ["帯広", "おびひろ", "obihiro"], 4.0))

  // 東北: src/constants.ts:48-53
  const Sendai := Entry("sendai", City("Sendai", "東北", ["仙台", "せんだい", "sendai"], 16.0))
  const Aomori := Entry("aomori", City("Aomori", "東北", ["青森", "あおもり", "aomori"], 12.0))
  const Morioka := Entry("morioka", City("Morioka", "東北", ["盛岡", "もりおか", "morioka"], 14.0))
  const Akita := Entry("akita", City("Akita", "東北", ["秋田", "あきた", "akita"], 15.0))
  const Yamagata := Entry("yamagata", City("Yamagata", "東北", ["山形", "やまがた", "yamagata"], 17.0))
  const Fukushima := Entry("fukushima", City("Fukushima", "東北", ["福島", "ふくしま", "fukushima"], 18.0))

  // 関東: src/constants.ts:56-66
  const Tokyo := Entry("tokyo", City("Tokyo", "関東", ["東京", "とうきょう", "tokyo"], 22.0))
  const Yokohama := Entry("yokohama", City("Yokohama", "関東", ["横浜", "よこはま", "yokohama"], 21.0))
  const Chiba := Entry("chiba", City("Chiba", "関東", ["千葉", "ちば", "chiba"], 20.0))
  const Saitama := Entry("saitama", City("Saitama", "関東", ["さいたま", "saitama"], 21.0))
  const Urawa := Entry("urawa", City("Urawa", "関東", ["浦和", "うらわ", "urawa"], 21.0))
  const Mito := Entry("mito", City("Mito", "関東", ["水戸", "みと", "mito"], 19.0))
  const Utsunomiya := Entry("utsunomiya", City("Utsunomiya", "関東", ["宇都宮", "うつのみや", "utsunomiya"], 20.0))
  const Maebashi := Entry("maebashi", City("Maebashi", "関東", ["前橋", "まえばし", "maebashi"], 21.0))

  // 中部: src/constants.ts:69-79
  const Nagoya := Entry("nagoya", City("Nagoya", "中部", ["名古屋", "なごや", "nagoya"], 23.0))
  const Shizuoka := Entry("shizuoka", City("Shizuoka", "中部", ["静岡", "しずおか", "shizuoka"], 22.0))
  const Hamamatsu := Entry("hamamatsu", City("Hamamatsu", "中部", ["浜松", "はままつ", "hamamatsu"], 21.0))
  const Niigata := Entry("niigata", City("Niigata", "中部", ["新潟", "にいがた", "niigata"], 18.0))
  const Nagano := Entry("nagano", City("Nagano", "中部", ["長野", "ながの", "nagano"], 16.0))
  const Matsumoto := Entry("matsumoto", City("Matsumoto", "中部", ["松本", "まつもと", "matsumoto"], 15.0))
  const Kofu := Entry("kofu", City("Kofu", "中部", ["甲府", "こうふ", "kofu"], 20.0))
  const Gifu := Entry("gifu", City("Gifu", "中部", ["岐阜", "ぎふ", "gifu"], 22.0))
  const Toyama := Entry("toyama", City("Toyama", "中部", ["富山", "とやま", "toyama"], 19.0))
  const Kanazawa := Entry("kanazawa", City("Kanazawa", "中部", ["金沢", "かなざわ", "kanazawa"], 18.0))
  const Fukui := Entry("fukui", City("Fukui", "中部", ["福井", "ふくい", "fukui"], 19.0))

  // 関西: src/constants.ts:82-95
  const Osaka := Entry("osaka", CityWith("Osaka", "関西", ["大阪", "おおさか", "osaka"], 25.0,
    Condition("Clouds", "曇り", "02d")))
  const Kyoto := Entry("kyoto", CityWith("Kyoto", "関西", ["京都", "きょうと", "kyoto"], 21.0,
    Condition("Rain", "小雨", "10d")))
  const Kobe := Entry("kobe", City("Kobe", "関西", ["神戸", "こうべ", "kobe"], 23.0))
  const Nara := Entry("nara", City("Nara", "関西", ["奈良", "なら", "nara"], 22.0))
  const Wakayama := Entry("wakayama", City("Wakayama", "関西", ["和歌山", "わかやま", "wakayama"], 24.0))
  const Otsu := Entry("otsu", City("Otsu", "関西", ["大津", "おおつ", "otsu"], 21.0))

  // 中国: src/constants.ts:98-102
  const Hiroshima := Entry("hiroshima", City("Hiroshima", "中国", ["広島", "ひろしま", "hiroshima"], 23.0))
  const Okayama := Entry("okayama", City("Okayama", "中国", ["岡山", "おかやま", "okayama"], 22.0))
  const Yamaguchi := Entry("yamaguchi", City("Yamaguchi", "中国", ["山口", "やまぐち", "yamaguchi"], 21.0))
  const Tottori := Entry("tottori", City("Tottori", "中国", ["鳥取", "とっとり", "tottori"], 20.0))
  const Matsue := Entry("matsue", City("Matsue", "中国", ["松江", "まつえ", "matsue"], 19.0))

  // 四国: src/constants.ts:105-108
  const Takamatsu := Entry("takamatsu", City("Takamatsu", "四国", ["高松", "たかまつ", "takamatsu"], 22.0))
  const Matsuyama := Entry("matsuyama", City("Matsuyama", "四国", ["松山", "まつやま", "matsuyama"], 23.0))
  const Kochi := Entry("kochi", City("Kochi", "四国", ["高知", "こうち", "kochi"], 24.0))
  const Tokushima := Entry("tokushima", City("Tokushima", "四国", ["徳島", "とくしま", "tokushima"], 23.0))

  // 九州・沖縄: src/constants.ts:111-124
  const Fukuoka := Entry("fukuoka", CityWith("Fukuoka", "九州", ["福岡", "ふくおか", "fukuoka"], 22.0,
    Condition("Clear", "晴れ", "01d")))
  const Kitakyushu := Entry("kitakyushu", City("Kitakyushu", "九州", ["北九州", "きたきゅうしゅう", "kitakyushu"], 21.0))
  const Saga := Entry("saga", City("Saga", "九州", ["佐賀", "さが", "saga"], 22.0))
  const Nagasaki := Entry("nagasaki", City("Nagasaki", "九州", ["長崎", "ながさき", "nagasaki"], 23.0))
  const Kumamoto := Entry("kumamoto", City("Kumamoto", "九州", ["熊本", "くまもと", "kumamoto"], 24.0))
  const Oita := Entry("oita", City("Oita", "九州", ["大分", "おおいた", "oita"], 23.0))
  const Miyazaki := Entry("miyazaki", City("Miyazaki", "九州", ["宮崎", "みやざき", "miyazaki"], 25.0))
  const Kagoshima := Entry("kagoshima", City("Kagoshima", "九州", ["鹿児島", "かごしま", "kagoshima"], 26.0))
  const Naha := Entry("naha", City("Naha", "沖縄", ["那覇", "なは", "naha"], 28.0))
  const Okinawa := Entry("okinawa", City("Okinawa", "沖縄", ["沖縄", "おきなわ", "okinawa"], 28.0))

  // 追加の主要都市: src/constants.ts:127-134
  const Kawasaki := Entry("kawasaki", City("Kawasaki", "関東", ["川崎", "かわさき", "kawasaki"], 21.0))
  const Sakai := Entry("sakai", City("Sakai", "関西", ["堺", "さかい", "sakai"], 24.0))
  const Sagamihara := Entry("sagamihara", City("Sagamihara", "関東", ["相模原", "さがみはら", "sagamihara"], 20.0))
  const Himeji := Entry("himeji", City("Himeji", "関西", ["姫路", "ひめじ", "himeji"], 22.0))
  const Hachioji := Entry("hachioji", City("Hachioji", "関東", ["八王子", "はちおうじ", "hachioji"], 19.0))
  const Funabashi := Entry("funabashi", City("Funabashi", "関東", ["船橋", "ふなばし", "funabashi"], 20.0))
  const Kagawa := Entry("kagawa", City("Kagawa", "四国", ["香川", "かがわ", "kagawa"], 22.0))
  const Ehime := Entry("ehime", City("Ehime", "四国", ["愛媛", "えひめ", "ehime"], 23.0))

  const Hokkaido: seq<Entry> := [Sapporo, Hakodate, Asahikawa, Kushiro, Obihiro]
  const Tohoku: seq<Entry> := [Sendai, Aomori, Morioka, Akita, Yamagata, Fukushima]
  const Kanto: seq<Entry> := [Tokyo, Yokohama, Chiba, Saitama, Urawa, Mito, Utsunomiya, Maebashi]
  const Chubu: seq<Entry> := [Nagoya, Shizuoka, Hamamatsu, Niigata, Nagano, Matsumoto, Kofu, Gifu, Toyama, Kanazawa, Fukui]
  const Kansai: seq<Entry> := [Osaka, Kyoto, Kobe, Nara, Wakayama, Otsu]
  const Chugoku: seq<Entry> := [Hiroshima, Okayama, Yamaguchi, Tottori, Matsue]
  const Shikoku: seq<Entry> := [Takamatsu, Matsuyama, Kochi, Tokushima]
  const KyushuOkinawa: seq<Entry> := [Fukuoka, Kitakyushu, Saga, Nagasaki, Kumamoto, Oita, Miyazaki, Kagoshima, Naha, Okinawa]
  const MoreMajorCities: seq<Entry> := [Kawasaki, Sakai, Sagamihara, Himeji, Hachioji, Funabashi, Kagawa, Ehime]

  /** `CITIES_DATA`, its properties in declaration order. */
  const CitiesData: seq<Entry> :=
    Hokkaido + Tohoku + Kanto + Chubu + Kansai + Chugoku + Shikoku + KyushuOkinawa + MoreMajorCities

  /** The invariants the resolver relies on: the key is the lower-cased name and
      starts with a Latin letter, the aliases contain it, and every other alias is
      written in Japanese script. */
  predicate WellFormed(e: Entry) {
    && e.key == Lower(e.city.name)
    && |e.key| > 0 && 'a' <= e.key[0] <= 'z'
    && e.key in e.city.aliases
    && forall i :: 0 <= i < |e.city.aliases| ==> e.city.aliases[i] == e.key || IsNonAscii(e.city.aliases[i])
  }

  predicate AllWellFormed(cat: seq<Entry>) {
    forall i :: 0 <= i < |cat| ==> WellFormed(cat[i])
  }

  lemma AllWellFormedAppend(a: seq<Entry>, b: seq<Entry>)
    requires AllWellFormed(a) && AllWellFormed(b)
    ensures AllWellFormed(a + b)
  {
    forall i | 0 <= i < |a + b|
      ensures WellFormed((a + b)[i])
    {
      if i >= |a| {
        assert (a + b)[i] == b[i - |a|];
      }
    }
  }

  // The per-region lemmas below hold no proof of their own: each states the fact for
  // a few records so that no single proof obligation carries the whole catalogue.

  lemma HokkaidoWellFormed1()
    ensures WellFormed(Sapporo) && WellFormed(Hakodate) && WellFormed(Asahikawa)
  {
  }

  lemma HokkaidoWellFormed2()
    ensures WellFormed(Kushiro) && WellFormed(Obihiro)
  {
  }

  lemma HokkaidoWellFormed()
    ensures AllWellFormed(Hokkaido)
  {
    HokkaidoWellFormed1();
    HokkaidoWellFormed2();
  }

  lemma TohokuWellFormed1()
    ensures WellFormed(Sendai) && WellFormed(Aomori) && WellFormed(Morioka)
  {
  }

  lemma TohokuWellFormed2()
    ensures WellFormed(Akita) && WellFormed(Yamagata) && WellFormed(Fukushima)
  {
  }

  lemma TohokuWellFormed()
    ensures AllWellFormed(Tohoku)
  {
    TohokuWellFormed1();
    TohokuWellFormed2();
  }

  lemma KantoWellFormed1()
    ensures WellFormed(Tokyo) && WellFormed(Yokohama) && WellFormed(Chiba)
  {
  }

  lemma KantoWellFormed2()
    ensures WellFormed(Saitama) && WellFormed(Urawa) && WellFormed(Mito)
  {
  }

  lemma KantoWellFormed3()
    ensures WellFormed(Utsunomiya) && WellFormed(Maebashi)
  {
  }

  lemma KantoWellFormed()
    ensures AllWellFormed(Kanto)
  {
    KantoWellFormed1();
    KantoWellFormed2();
    KantoWellFormed3();
  }

  lemma ChubuWellFormed1()
    ensures WellFormed(Nagoya) && WellFormed(Shizuoka) && WellFormed(Hamamatsu)
  {
  }

  lemma ChubuWellFormed2()
    ensures WellFormed(Niigata) && WellFormed(Nagano) && WellFormed(Matsumoto)
  {
  }

  lemma ChubuWellFormed3()
    ensures WellFormed(Kofu) && WellFormed(Gifu) && WellFormed(Toyama)
  {
  }

  lemma ChubuWellFormed4()
    ensures WellFormed(Kanazawa) && WellFormed(Fukui)
  {
  }

  lemma ChubuWellFormed()
    ensures AllWellFormed(Chubu)
  {
    ChubuWellFormed1();
    ChubuWellFormed2();
    ChubuWellFormed3();
    ChubuWellFormed4();
  }

  lemma KansaiWellFormed1()
    ensures WellFormed(Osaka) && WellFormed(Kyoto) && WellFormed(Kobe)
  {
  }

  lemma KansaiWellFormed2()
    ensures WellFormed(Nara) && WellFormed(Wakayama) && WellFormed(Otsu)
  {
  }

  lemma KansaiWellFormed()
    ensures AllWellFormed(Kansai)
  {
    KansaiWellFormed1();
    KansaiWellFormed2();
  }

  lemma ChugokuWellFormed1()
    ensures WellFormed(Hiroshima) && WellFormed(Okayama) && WellFormed(Yamaguchi)
  {
  }

  lemma ChugokuWellFormed2()
    ensures WellFormed(Tottori) && WellFormed(Matsue)
  {
  }

  lemma ChugokuWellFormed()
    ensures AllWellFormed(Chugoku)
  {
    ChugokuWellFormed1();
    ChugokuWellFormed2();
  }

  lemma ShikokuWellFormed1()
    ensures WellFormed(Takamatsu) && WellFormed(Matsuyama) && WellFormed(Kochi)
  {
  }

  lemma ShikokuWellFormed2()
    ensures WellFormed(Tokushima)
  {
  }

  lemma ShikokuWellFormed()
    ensures AllWellFormed(Shikoku)
  {
    ShikokuWellFormed1();
    ShikokuWellFormed2();
  }

  lemma KyushuOkinawaWellFormed1()
    ensures WellFormed(Fukuoka) && WellFormed(Kitakyushu) && WellFormed(Saga)
  {
  }

  lemma KyushuOkinawaWellFormed2()
    ensures WellFormed(Nagasaki) && WellFormed(Kumamoto) && WellFormed(Oita)
  {
  }

  lemma KyushuOkinawaWellFormed3()
    ensures WellFormed(Miyazaki) && WellFormed(Kagoshima) && WellFormed(Naha)
  {
  }

  lemma KyushuOkinawaWellFormed4()
    ensures WellFormed(Okinawa)
  {
  }

  lemma KyushuOkinawaWellFormed()
    ensures AllWellFormed(KyushuOkinawa)
  {
    KyushuOkinawaWellFormed1();
    KyushuOkinawaWellFormed2();
    KyushuOkinawaWellFormed3();
    KyushuOkinawaWellFormed4();
  }

  lemma MoreMajorCitiesWellFormed1()
    ensures WellFormed(Kawasaki) && WellFormed(Sakai) && WellFormed(Sagamihara)
  {
  }

  lemma MoreMajorCitiesWellFormed2()
    ensures WellFormed(Himeji) && WellFormed(Hachioji) && WellFormed(Funabashi)
  {
  }

  lemma MoreMajorCitiesWellFormed3()
    ensures WellFormed(Kagawa) && WellFormed(Ehime)
  {
  }

  lemma MoreMajorCitiesWellFormed()
    ensures AllWellFormed(MoreMajorCities)
  {
    MoreMajorCitiesWellFormed1();
    MoreMajorCitiesWellFormed2();
    MoreMajorCitiesWellFormed3();
  }

  /** Every record of the catalogue keeps the invariants. */
  lemma CatalogueWellFormed()
    ensures AllWellFormed(CitiesData)
  {
    HokkaidoWellFormed();
    TohokuWellFormed();
    KantoWellFormed();
    ChubuWellFormed();
    KansaiWellFormed();
    ChugokuWellFormed();
    ShikokuWellFormed();
    KyushuOkinawaWellFormed();
    MoreMajorCitiesWellFormed();
    AllWellFormedAppend(Hokkaido, Tohoku);
    AllWellFormedAppend(Hokkaido + Tohoku, Kanto);
    AllWellFormedAppend(Hokkaido + Tohoku + Kanto, Chubu);
    AllWellFormedAppend(Hokkaido + Tohoku + Kanto + Chubu, Kansai);
    AllWellFormedAppend(Hokkaido + Tohoku + Kanto + Chubu + Kansai, Chugoku);
    AllWellFormedAppend(Hokkaido + Tohoku + Kanto + Chubu + Kansai + Chugoku, Shikoku);
    AllWellFormedAppend(Hokkaido + Tohoku + Kanto + Chubu + Kansai + Chugoku + Shikoku, KyushuOkinawa);
    AllWellFormedAppend(Hokkaido + Tohoku + Kanto + Chubu + Kansai + Chugoku + Shikoku + KyushuOkinawa, MoreMajorCities);
  }
  /** No two properties share a key (a JavaScript object literal cannot hold a key twice). */
  predicate DistinctKeys(cat: seq<Entry>) {
    forall i, j :: 0 <= i < j < |cat| ==> cat[i].key != cat[j].key
  }

  /** No key of `a` is a key of `b`. */
  predicate KeysDiffer(a: seq<Entry>, b: seq<Entry>) {
    forall i, j :: 0 <= i < |a| && 0 <= j < |b| ==> a[i].key != b[j].key
  }

  lemma DistinctKeysAppend(a: seq<Entry>, b: seq<Entry>)
    requires DistinctKeys(a) && DistinctKeys(b) && KeysDiffer(a, b)
    ensures DistinctKeys(a + b)
  {
    forall i, j | 0 <= i < j < |a + b|
      ensures (a + b)[i].key != (a + b)[j].key
    {
      if j >= |a| {
        assert (a + b)[j] == b[j - |a|];
        if i >= |a| {
          assert (a + b)[i] == b[i - |a|];
        }
      }
    }
  }

  lemma KeysDifferAppend(a: seq<Entry>, b: seq<Entry>, c: seq<Entry>)
    requires KeysDiffer(a, c) && KeysDiffer(b, c)
    ensures KeysDiffer(a + b, c)
  {
    forall i, j | 0 <= i < |a + b| && 0 <= j < |c|
      ensures (a + b)[i].key != c[j].key
    {
      if i >= |a| {
        assert (a + b)[i] == b[i - |a|];
      }
    }
  }

  // Distinct keys, region by region and then for each pair of regions; like the
  // well-formedness lemmas, these only split the work and need no proof text.

  lemma HokkaidoDistinctKeys()
    ensures DistinctKeys(Hokkaido)
  {
  }

  lemma TohokuDistinctKeys()
    ensures DistinctKeys(Tohoku)
  {
  }

  lemma KantoDistinctKeys()
    ensures DistinctKeys(Kanto)
  {
  }

  lemma ChubuDistinctKeys()
    ensures DistinctKeys(Chubu)
  {
  }

  lemma KansaiDistinctKeys()
    ensures DistinctKeys(Kansai)
  {
  }

  lemma ChugokuDistinctKeys()
    ensures DistinctKeys(Chugoku)
  {
  }

  lemma ShikokuDistinctKeys()
    ensures DistinctKeys(Shikoku)
  {
  }

  lemma KyushuOkinawaDistinctKeys()
    ensures DistinctKeys(KyushuOkinawa)
  {
  }

  lemma MoreMajorCitiesDistinctKeys()
    ensures DistinctKeys(MoreMajorCities)
  {
  }

  lemma HokkaidoTohokuKeysDiffer()
    ensures KeysDiffer(Hokkaido, Tohoku)
  {
  }

  lemma HokkaidoKantoKeysDiffer()
    ensures KeysDiffer(Hokkaido, Kanto)
  {
  }

  lemma TohokuKantoKeysDiffer()
    ensures KeysDiffer(Tohoku, Kanto)
  {
  }

  lemma HokkaidoChubuKeysDiffer()
    ensures KeysDiffer(Hokkaido, Chubu)
  {
  }

  lemma TohokuChubuKeysDiffer()
    ensures KeysDiffer(Tohoku, Chubu)
  {
  }

  lemma KantoChubuKeysDiffer()
    ensures KeysDiffer(Kanto, Chubu)
  {
  }

  lemma HokkaidoKansaiKeysDiffer()
    ensures KeysDiffer(Hokkaido, Kansai)
  {
  }

  lemma TohokuKansaiKeysDiffer()
    ensures KeysDiffer(Tohoku, Kansai)
  {
  }

  lemma KantoKansaiKeysDiffer()
    ensures KeysDiffer(Kanto, Kansai)
  {
  }

  lemma ChubuKansaiKeysDiffer()
    ensures KeysDiffer(Chubu, Kansai)
  {
  }

  lemma HokkaidoChugokuKeysDiffer()
    ensures KeysDiffer(Hokkaido, Chugoku)
  {
  }

  lemma TohokuChugokuKeysDiffer()
    ensures KeysDiffer(Tohoku, Chugoku)
  {
  }

  lemma KantoChugokuKeysDiffer()
    ensures KeysDiffer(Kanto, Chugoku)
  {
  }

  lemma ChubuChugokuKeysDiffer()
    ensures KeysDiffer(Chubu, Chugoku)
  {
  }

  lemma KansaiChugokuKeysDiffer()
    ensures KeysDiffer(Kansai, Chugoku)
  {
  }

  lemma HokkaidoShikokuKeysDiffer()
    ensures KeysDiffer(Hokkaido, Shikoku)
  {
  }

  lemma TohokuShikokuKeysDiffer()
    ensures KeysDiffer(Tohoku, Shikoku)
  {
  }

  lemma KantoShikokuKeysDiffer()
    ensures KeysDiffer(Kanto, Shikoku)
  {
  }

  lemma ChubuShikokuKeysDiffer()
    ensures KeysDiffer(Chubu, Shikoku)
  {
  }

  lemma KansaiShikokuKeysDiffer()
    ensures KeysDiffer(Kansai, Shikoku)
  {
  }

  lemma ChugokuShikokuKeysDiffer()
    ensures KeysDiffer(Chugoku, Shikoku)
  {
  }

  lemma HokkaidoKyushuOkinawaKeysDiffer()
    ensures KeysDiffer(Hokkaido, KyushuOkinawa)
  {
  }

  lemma TohokuKyushuOkinawaKeysDiffer()
    ensures KeysDiffer(Tohoku, KyushuOkinawa)
  {
  }

  lemma KantoKyushuOkinawaKeysDiffer()
    ensures KeysDiffer(Kanto, KyushuOkinawa)
  {
  }

  lemma ChubuKyushuOkinawaKeysDiffer()
    ensures KeysDiffer(Chubu, KyushuOkinawa)
  {
  }

  lemma KansaiKyushuOkinawaKeysDiffer()
    ensures KeysDiffer(Kansai, KyushuOkinawa)
  {
  }

  lemma ChugokuKyushuOkinawaKeysDiffer()
    ensures KeysDiffer(Chugoku, KyushuOkinawa)
  {
  }

  lemma ShikokuKyushuOkinawaKeysDiffer()
    ensures KeysDiffer(Shikoku, KyushuOkinawa)
  {
  }

  lemma HokkaidoMoreMajorCitiesKeysDiffer()
    ensures KeysDiffer(Hokkaido, MoreMajorCities)
  {
  }

  lemma TohokuMoreMajorCitiesKeysDiffer()
    ensures KeysDiffer(Tohoku, MoreMajorCities)
  {
  }

  lemma KantoMoreMajorCitiesKeysDiffer()
    ensures KeysDiffer(Kanto, MoreMajorCities)
  {
  }

  lemma ChubuMoreMajorCitiesKeysDiffer()
    ensures KeysDiffer(Chubu, MoreMajorCities)
  {
  }

  lemma KansaiMoreMajorCitiesKeysDiffer()
    ensures KeysDiffer(Kansai, MoreMajorCities)
  {
  }

  lemma ChugokuMoreMajorCitiesKeysDiffer()
    ensures KeysDiffer(Chugoku, MoreMajorCities)
  {
  }

  lemma ShikokuMoreMajorCitiesKeysDiffer()
    ensures KeysDiffer(Shikoku, MoreMajorCities)
  {
  }

  lemma KyushuOkinawaMoreMajorCitiesKeysDiffer()
    ensures KeysDiffer(KyushuOkinawa, MoreMajorCities)
  {
  }

  // Each region's keys are new with respect to all earlier regions.

  lemma TohokuKeysNew()
    ensures KeysDiffer(Hokkaido, Tohoku)
  {
    HokkaidoTohokuKeysDiffer();
  }

  lemma KantoKeysNew()
    ensures KeysDiffer(Hokkaido + Tohoku, Kanto)
  {
    HokkaidoKantoKeysDiffer();
    TohokuKantoKeysDiffer();
    KeysDifferAppend(Hokkaido, Tohoku, Kanto);
  }

  lemma ChubuKeysNew()
    ensures KeysDiffer(Hokkaido + Tohoku + Kanto, Chubu)
  {
    HokkaidoChubuKeysDiffer();
    TohokuChubuKeysDiffer();
    KantoChubuKeysDiffer();
    KeysDifferAppend(Hokkaido, Tohoku, Chubu);
    KeysDifferAppend(Hokkaido + Tohoku, Kanto, Chubu);
  }

  lemma KansaiKeysNew()
    ensures KeysDiffer(Hokkaido + Tohoku + Kanto + Chubu, Kansai)
  {
    HokkaidoKansaiKeysDiffer();
    TohokuKansaiKeysDiffer();
    KantoKansaiKeysDiffer();
    ChubuKansaiKeysDiffer();
    KeysDifferAppend(Hokkaido, Tohoku, Kansai);
    KeysDifferAppend(Hokkaido + Tohoku, Kanto, Kansai);
    KeysDifferAppend(Hokkaido + Tohoku + Kanto, Chubu, Kansai);
  }

  lemma ChugokuKeysNew()
    ensures KeysDiffer(Hokkaido + Tohoku + Kanto + Chubu + Kansai, Chugoku)
  {
    HokkaidoChugokuKeysDiffer();
    TohokuChugokuKeysDiffer();
    KantoChugokuKeysDiffer();
    ChubuChugokuKeysDiffer();
    KansaiChugokuKeysDiffer();
    KeysDifferAppend(Hokkaido, Tohoku, Chugoku);
    KeysDifferAppend(Hokkaido + Tohoku, Kanto, Chugoku);
    KeysDifferAppend(Hokkaido + Tohoku + Kanto, Chubu, Chugoku);
    KeysDifferAppend(Hokkaido + Tohoku + Kanto + Chubu, Kansai, Chugoku);
  }

  lemma ShikokuKeysNew()
    ensures KeysDiffer(Hokkaido + Tohoku + Kanto + Chubu + Kansai + Chugoku, Shikoku)
  {
    HokkaidoShikokuKeysDiffer();
    TohokuShikokuKeysDiffer();
    KantoShikokuKeysDiffer();
    ChubuShikokuKeysDiffer();
    KansaiShikokuKeysDiffer();
    ChugokuShikokuKeysDiffer();
    KeysDifferAppend(Hokkaido, Tohoku, Shikoku);
    KeysDifferAppend(Hokkaido + Tohoku, Kanto, Shikoku);
    KeysDifferAppend(Hokkaido + Tohoku + Kanto, Chubu, Shikoku);
    KeysDifferAppend(Hokkaido + Tohoku + Kanto + Chubu, Kansai, Shikoku);
    KeysDifferAppend(Hokkaido + Tohoku + Kanto + Chubu + Kansai, Chugoku, Shikoku);
  }

  lemma KyushuOkinawaKeysNew()
    ensures KeysDiffer(Hokkaido + Tohoku + Kanto + Chubu + Kansai + Chugoku + Shikoku, KyushuOkinawa)
  {
    HokkaidoKyushuOkinawaKeysDiffer();
    TohokuKyushuOkinawaKeysDiffer();
    KantoKyushuOkinawaKeysDiffer();
    ChubuKyushuOkinawaKeysDiffer();
    KansaiKyushuOkinawaKeysDiffer();
    ChugokuKyushuOkinawaKeysDiffer();
    ShikokuKyushuOkinawaKeysDiffer();
    KeysDifferAppend(Hokkaido, Tohoku, KyushuOkinawa);
    KeysDifferAppend(Hokkaido + Tohoku, Kanto, KyushuOkinawa);
    KeysDifferAppend(Hokkaido + Tohoku + Kanto, Chubu, KyushuOkinawa);
    KeysDifferAppend(Hokkaido + Tohoku + Kanto + Chubu, Kansai, KyushuOkinawa);
    KeysDifferAppend(Hokkaido + Tohoku + Kanto + Chubu + Kansai, Chugoku, KyushuOkinawa);
    KeysDifferAppend(Hokkaido + Tohoku + Kanto + Chubu + Kansai + Chugoku, Shikoku, KyushuOkinawa);
  }

  lemma MoreMajorCitiesKeysNew()
    ensures KeysDiffer(Hokkaido + Tohoku + Kanto + Chubu + Kansai + Chugoku + Shikoku + KyushuOkinawa, MoreMajorCities)
  {
    HokkaidoMoreMajorCitiesKeysDiffer();
    TohokuMoreMajorCitiesKeysDiffer();
    KantoMoreMajorCitiesKeysDiffer();
    ChubuMoreMajorCitiesKeysDiffer();
    KansaiMoreMajorCitiesKeysDiffer();
    ChugokuMoreMajorCitiesKeysDiffer();
    ShikokuMoreMajorCitiesKeysDiffer();
    KyushuOkinawaMoreMajorCitiesKeysDiffer();
    KeysDifferAppend(Hokkaido, Tohoku, MoreMajorCities);
    KeysDifferAppend(Hokkaido + Tohoku, Kanto, MoreMajorCities);
    KeysDifferAppend(Hokkaido + Tohoku + Kanto, Chubu, MoreMajorCities);
    KeysDifferAppend(Hokkaido + Tohoku + Kanto + Chubu, Kansai, MoreMajorCities);
    KeysDifferAppend(Hokkaido + Tohoku + Kanto + Chubu + Kansai, Chugoku, MoreMajorCities);
    KeysDifferAppend(Hokkaido + Tohoku + Kanto + Chubu + Kansai + Chugoku, Shikoku, MoreMajorCities);
    KeysDifferAppend(Hokkaido + Tohoku + Kanto + Chubu + Kansai + Chugoku + Shikoku, KyushuOkinawa, MoreMajorCities);
  }

  /** The catalogue has 63 records and no two share a key. */
  lemma CatalogueKeysDistinct()
    ensures |CitiesData| == 63
    ensures DistinctKeys(CitiesData)
  {
    HokkaidoDistinctKeys();
    TohokuDistinctKeys();
    KantoDistinctKeys();
    ChubuDistinctKeys();
    KansaiDistinctKeys();
    ChugokuDistinctKeys();
    ShikokuDistinctKeys();
    KyushuOkinawaDistinctKeys();
    MoreMajorCitiesDistinctKeys();
    TohokuKeysNew();
    DistinctKeysAppend(Hokkaido, Tohoku);
    KantoKeysNew();
    DistinctKeysAppend(Hokkaido + Tohoku, Kanto);
    ChubuKeysNew();
    DistinctKeysAppend(Hokkaido + Tohoku + Kanto, Chubu);
    KansaiKeysNew();
    DistinctKeysAppend(Hokkaido + Tohoku + Kanto + Chubu, Kansai);
    ChugokuKeysNew();
    DistinctKeysAppend(Hokkaido + Tohoku + Kanto + Chubu + Kansai, Chugoku);
    ShikokuKeysNew();
    DistinctKeysAppend(Hokkaido + Tohoku + Kanto + Chubu + Kansai + Chugoku, Shikoku);
    KyushuOkinawaKeysNew();
    DistinctKeysAppend(Hokkaido + Tohoku + Kanto + Chubu + Kansai + Chugoku + Shikoku, KyushuOkinawa);
    MoreMajorCitiesKeysNew();
    DistinctKeysAppend(Hokkaido + Tohoku + Kanto + Chubu + Kansai + Chugoku + Shikoku + KyushuOkinawa, MoreMajorCities);
  }

  /** For a query whose lower-cased form starts with an ASCII character (such as a
      romanised city name), a well-formed record scores 1 exactly when its key is the
      lower-cased query. */
  lemma KeyDecidesExact(query: string, e: Entry)
    requires WellFormed(e) && |query| > 0 && (Lower(query)[0] as int) < 128
    ensures Classify(Lower(query), e.city).score == 1.0 <==> e.key == Lower(query)
  {
    var queryLower := Lower(query);
    ExactScoreIff(query, e.city);
    LowerIdempotent(e.city.name);
    if AliasEquals(queryLower, e.city) {
      var i :| 0 <= i < |e.city.aliases| && Lower(e.city.aliases[i]) == queryLower;
      var alias := e.city.aliases[i];
      if alias != e.key {
        LowerKeepsScript(alias);
        assert Lower(alias)[0] == queryLower[0];
      }
    }
  }

  /** `p` names record `i` and no other, and `findCityByName(p)` returns that record
      with score 1 and match type `exact`. */
  predicate ResolvesExactly(cat: seq<Entry>, p: string, i: nat) {
    && i < |cat| && cat[i].city.name == p
    && (forall j :: 0 <= j < |cat| && cat[j].city.name == p ==> j == i)
    && Search(p, DefaultThreshold, cat) != []
    && Search(p, DefaultThreshold, cat)[0] == ScoredCity(cat[i].city, 1.0, Exact)
  }

  /** In a well-formed catalogue with distinct keys every record is the only one
      carrying its name, and looking that name up returns the record itself with
      score 1 and type `exact`. */
  lemma ResolvesByKey(cat: seq<Entry>, i: nat)
    requires AllWellFormed(cat) && DistinctKeys(cat) && i < |cat|
    ensures ResolvesExactly(cat, cat[i].city.name, i)
  {
    var name := cat[i].city.name;
    var queryLower := Lower(name);
    assert WellFormed(cat[i]);
    assert !IsBlank(name) by {
      assert queryLower[0] == LowerChar(name[0]);
    }
    forall j | 0 <= j < i
      ensures Scored(queryLower, cat[j].city).score < 1.0
    {
      KeyDecidesExact(name, cat[j]);
    }
    KeyDecidesExact(name, cat[i]);
    FirstExactHeads(name, DefaultThreshold, cat, i);
    forall j | 0 <= j < |cat| && cat[j].city.name == name
      ensures j == i
    {
      assert WellFormed(cat[j]);
    }
  }

  /** Looking up the name of any bundled record finds exactly that record. */
  lemma EveryCityResolves(i: nat)
    requires i < |CitiesData|
    ensures ResolvesExactly(CitiesData, CitiesData[i].city.name, i)
  {
    CatalogueWellFormed();
    CatalogueKeysDistinct();
    ResolvesByKey(CitiesData, i);
  }

  /** In the fuzzy fallback a bundled record's best alias similarity is at least its
      name similarity (the aliases contain the lower-cased name), so `fuzzy_name` is
      chosen exactly when the name ties with the best alias. */
  lemma CatalogueFuzzyName(queryLower: string, i: nat)
    requires i < |CitiesData|
    ensures |CitiesData[i].city.aliases| > 0
    ensures var c := Classify(queryLower, CitiesData[i].city);
      c.matchType.IsFuzzy() ==>
        && MaxOf(AliasSimilarities(queryLower, CitiesData[i].city.aliases)) == Some(c.score)
        && (c.matchType == FuzzyName <==> Similarity(queryLower, CitiesData[i].city.name) == c.score)
  {
    CatalogueWellFormed();
    assert WellFormed(CitiesData[i]);
    FuzzyNameIffTie(queryLower, CitiesData[i].city);
  }

  /** `POPULAR_CITIES`: the quick-pick names shown under the search box. */
  const PopularCities: seq<string> :=
    ["Tokyo", "Osaka", "Kyoto", "Sapporo", "Fukuoka", "Sendai",
     "Hiroshima", "Naha", "Nagoya", "Kanazawa", "Matsuyama", "Niigata"]

  /** Where each popular city sits in the catalogue. */
  const PopularIndices: seq<nat> := [11, 30, 31, 0, 45, 5, 36, 53, 19, 28, 42, 22]

  /** Each index points at the record carrying that name. */
  lemma PopularNamesListed()
    ensures |PopularIndices| == |PopularCities|
    ensures forall k :: 0 <= k < |PopularCities| ==>
      PopularIndices[k] < |CitiesData| && CitiesData[PopularIndices[k]].city.name == PopularCities[k]
  {
    PopularNamesListedFirst();
    PopularNamesListedRest();
  }

  lemma PopularNamesListedFirst()
    ensures forall k :: 0 <= k < 6 ==>
      PopularIndices[k] < |CitiesData| && CitiesData[PopularIndices[k]].city.name == PopularCities[k]
  {
  }

  lemma PopularNamesListedRest()
    ensures forall k :: 6 <= k < 12 ==>
      PopularIndices[k] < |CitiesData| && CitiesData[PopularIndices[k]].city.name == PopularCities[k]
  {
  }

  /** Every popular city names exactly one record, and looking it up returns that
      record as an exact match. */
  lemma PopularCitiesResolve()
    ensures forall k :: 0 <= k < |PopularCities| ==>
      PopularIndices[k] < |CitiesData| && ResolvesExactly(CitiesData, PopularCities[k], PopularIndices[k])
  {
    PopularNamesListed();
    forall k | 0 <= k < |PopularCities|
      ensures ResolvesExactly(CitiesData, PopularCities[k], PopularIndices[k])
    {
      EveryCityResolves(PopularIndices[k]);
    }
  }

  /** `FORECAST_DATA`, evaluated when `Date.now() / 1000` is `nowSeconds`: once when
      `src/constants.ts` loads, and on every render in `src/App.tsx`. */
  function ForecastData(nowSeconds: real): (r: seq<ForecastItem>)
    ensures |r| == 4
    // one item per hour for the next four hours, each with a single condition
    ensures forall k :: 0 <= k < |r| ==> r[k].dt == nowSeconds + 3600.0 * (k + 1) as real && |r[k].weather| == 1
  {
    [ ForecastItem(nowSeconds + 3600.0, 24.0, [Condition("晴れ", "晴れ", "01d")]),
      ForecastItem(nowSeconds + 7200.0, 26.0, [Condition("曇り", "曇り", "02d")]),
      ForecastItem(nowSeconds + 10800.0, 23.0, [Condition("雨", "雨", "09d")]),
      ForecastItem(nowSeconds + 14400.0, 20.0, [Condition("晴れ", "晴れ", "01n")]) ]
  }

  /** `EVENT_TYPES`: how each kind of calendar event is shown. */
  const EventTypes: map<string, EventType> := map[
    "personal" := EventType("個人", "bg-blue-500", "bg-opacity-50", "\U{1F464}"),
    "work" := EventType("仕事", "bg-red-500", "bg-opacity-50", "\U{1F4BC}"),
    "company" := EventType("会社", "bg-orange-500", "bg-opacity-50", "\U{1F3E2}"),
    "social" := EventType("社交", "bg-green-500", "bg-opacity-50", "\U{1F389}"),
    "workout" := EventType("運動", "bg-purple-500", "bg-opacity-50", "\U{1F4AA}")]

  /** The five event kinds, all drawn at the same opacity. */
  lemma EventTypeKinds()
    ensures EventTypes.Keys == {"personal", "work", "company", "social", "workout"}
    ensures forall kind :: kind in EventTypes ==> EventTypes[kind].bgOpacity == "bg-opacity-50"
  {
  }
}
