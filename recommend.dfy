/**
 * The recommendation pipeline of the backend: the fixed lookup tables and
 * fallbacks (weather labels, category queries, price tiers), the extraction
 * of a JSON object from a language-model reply, and the sequential pipeline
 * geocode -> weather -> restaurant -> cafe -> pick reason.
 *
 * Every outside call (OpenAI, Open-Meteo, Google Places) is a field of
 * `Services`, an uninterpreted function from what the source sends to what
 * it gets back, `None`/`Failure` standing for a non-ok HTTP status or an
 * unusable payload.
 */
module Recommend {
  import opened Wrappers

  // ---------------------------------------------------------------------------
  // WMO weather code -> Korean label

  const UnknownWeather: string := "알 수 없음"

  const WeatherLabels: map<int, string> := map[
    0 := "맑음", 1 := "대체로 맑음", 2 := "약간 흐림", 3 := "흐림",
    45 := "안개", 48 := "결빙성 안개",
    51 := "약한 이슬비", 53 := "보통 이슬비", 55 := "강한 이슬비",
    56 := "약한 찬 이슬비", 57 := "강한 찬 이슬비",
    61 := "약한 비", 63 := "보통 비", 65 := "강한 비",
    66 := "약한 찬 비", 67 := "강한 찬 비",
    71 := "약한 눈", 73 := "보통 눈", 75 := "강한 눈",
    77 := "눈알",
    80 := "약한 소나기", 81 := "보통 소나기", 82 := "강한 소나기",
    85 := "약한 눈 소나기", 86 := "강한 눈 소나기",
    95 := "천둥번개", 96 := "우박 천둥번개", 99 := "심한 우박 천둥번개"
  ]

  /** `descriptions[code] || '알 수 없음'`: a missing key and a falsy label both fall back. */
  function WeatherDescription(code: int): (text: string)
    ensures code in WeatherLabels ==> text == WeatherLabels[code]
    ensures text == UnknownWeather <==> code !in WeatherLabels
    ensures text != ""
  {
    if code in WeatherLabels && WeatherLabels[code] != "" then WeatherLabels[code] else UnknownWeather
  }

  // ---------------------------------------------------------------------------
  // Food category -> Places text-search keyword

  const FallbackQuery: string := "restaurant"

  const CategoryQueries: map<string, string> := map[
    "양식" := "restaurant italian western",
    "한식" := "korean restaurant",
    "일식" := "japanese restaurant sushi",
    "중식" := "chinese restaurant",
    "아시안" := "asian restaurant thai vietnamese"
  ]

  /** `categoryMap[category] || 'restaurant'`. */
  function CategoryQuery(category: string): (query: string)
    ensures category in CategoryQueries ==> query == CategoryQueries[category]
    ensures query == FallbackQuery <==> category !in CategoryQueries
  {
    if category in CategoryQueries && CategoryQueries[category] != "" then CategoryQueries[category]
    else FallbackQuery
  }

  // ---------------------------------------------------------------------------
  // Price tiers

  /** A price tier of `n` won signs. */
  function Won(n: nat): (tier: string)
    ensures |tier| == n && forall i :: 0 <= i < n ==> tier[i] == '₩'
  {
    seq(n, _ => '₩')
  }

  /** The user's budget (in won) as a tier of one to four signs. */
  function BudgetTier(budget: int): (tier: string)
    ensures 1 <= |tier| <= 4 && tier == Won(|tier|)
  {
    if budget <= 10000 then "₩"
    else if budget <= 15000 then "₩₩"
    else if budget <= 20000 then "₩₩₩"
    else "₩₩₩₩"
  }

  /** A larger budget never yields a cheaper tier. */
  lemma BudgetTierMonotone(lower: int, higher: int)
    requires lower <= higher
    ensures |BudgetTier(lower)| <= |BudgetTier(higher)|
  {
  }

  const PriceLevels: map<int, string> := map[
    0 := "₩", 1 := "₩₩", 2 := "₩₩₩", 3 := "₩₩₩₩", 4 := "₩₩₩₩₩"
  ]

  /** `priceLevels[details.price_level]`, with `undefined` rendered as the falsy "". */
  function LevelLabel(priceLevel: Option<int>): (text: string)
    ensures text != "" <==> priceLevel.Some? && 0 <= priceLevel.value <= 4
    ensures text != "" ==> text == Won(priceLevel.value + 1)
  {
    if priceLevel.Some? && priceLevel.value in PriceLevels then PriceLevels[priceLevel.value] else ""
  }

  /** A Places `price_level` the table knows. */
  predicate KnownLevel(priceLevel: Option<int>) {
    priceLevel.Some? && 0 <= priceLevel.value <= 4
  }

  /** Restaurant price: the API's level first, the budget tier only when it is missing. */
  function RestaurantPrice(priceLevel: Option<int>, budget: int): (price: string)
    ensures KnownLevel(priceLevel) ==> price == Won(priceLevel.value + 1)
    ensures !KnownLevel(priceLevel) ==> price == BudgetTier(budget)
    ensures 1 <= |price| <= 5 && price == Won(|price|)
  {
    var listed := LevelLabel(priceLevel);
    if listed != "" then listed else BudgetTier(budget)
  }

  /** Cafe price: the API's level, else the fixed two-sign tier. */
  function CafePrice(priceLevel: Option<int>): (price: string)
    ensures KnownLevel(priceLevel) ==> price == Won(priceLevel.value + 1)
    ensures !KnownLevel(priceLevel) ==> price == Won(2)
  {
    var listed := LevelLabel(priceLevel);
    if listed != "" then listed else "₩₩"
  }

  /** The API's level takes precedence: with a known level the budget is irrelevant. */
  lemma RestaurantPriceIgnoresBudget(priceLevel: Option<int>, budget1: int, budget2: int)
    requires KnownLevel(priceLevel)
    ensures RestaurantPrice(priceLevel, budget1) == RestaurantPrice(priceLevel, budget2)
  {
  }

  /** The five listed levels give five different tiers, for restaurants and cafes alike. */
  lemma LevelTiersDistinct(level1: int, level2: int, budget: int)
    requires 0 <= level1 <= 4 && 0 <= level2 <= 4 && level1 != level2
    ensures RestaurantPrice(Some(level1), budget) != RestaurantPrice(Some(level2), budget)
    ensures CafePrice(Some(level1)) != CafePrice(Some(level2))
    ensures RestaurantPrice(Some(level1), budget) == CafePrice(Some(level1))
  {
    assert |RestaurantPrice(Some(level1), budget)| != |RestaurantPrice(Some(level2), budget)|;
    assert |CafePrice(Some(level1))| != |CafePrice(Some(level2))|;
  }

  // ---------------------------------------------------------------------------
  // First-'{'-to-last-'}' extraction of JSON from a model reply

  /** The first position of `c` in `s`. */
  function FirstIndexOf(s: string, c: char): (r: Option<nat>)
    ensures r.Some? ==> r.value < |s| && s[r.value] == c && forall k :: 0 <= k < r.value ==> s[k] != c
    ensures r.None? ==> forall k :: 0 <= k < |s| ==> s[k] != c
  {
    if |s| == 0 then None
    else if s[0] == c then Some(0)
    else match FirstIndexOf(s[1..], c)
      case None => None
      case Some(i) => Some(i + 1)
  }

  /** The last position of `c` in `s`. */
  function LastIndexOf(s: string, c: char): (r: Option<nat>)
    ensures r.Some? ==> r.value < |s| && s[r.value] == c && forall k :: r.value < k < |s| ==> s[k] != c
    ensures r.None? ==> forall k :: 0 <= k < |s| ==> s[k] != c
  {
    if |s| == 0 then None
    else if s[|s| - 1] == c then Some(|s| - 1)
    else LastIndexOf(s[..|s| - 1], c)
  }

  /** Positions `i < j` of a '{' and a later '}': a match of `/\{[\s\S]*\}/` at `i`..`j`. */
  predicate BracePair(s: string, i: int, j: int) {
    0 <= i < j < |s| && s[i] == '{' && s[j] == '}'
  }

  /**
   * The span `/\{[\s\S]*\}/` matches: the leftmost start that has a match,
   * extended greedily to the last possible end.
   */
  function JsonSpan(reply: string): (span: Option<(nat, nat)>)
    ensures span.None? <==> forall i, j :: !BracePair(reply, i, j)
    ensures span.Some? ==> BracePair(reply, span.value.0, span.value.1)
    ensures span.Some? ==> forall i, j :: BracePair(reply, i, j) ==> span.value.0 <= i && j <= span.value.1
  {
    match FirstIndexOf(reply, '{')
    case None => None
    case Some(i) =>
      match LastIndexOf(reply, '}')
      case None => None
      case Some(j) =>
        if i < j then
          assert BracePair(reply, i, j);
          Some((i, j))
        else None
  }

  /** `text` occurs in `s` at `i`, with no '{' before it and no '}' after it. */
  predicate OutermostAt(s: string, i: int, text: string) {
    0 <= i && i + |text| <= |s| && s[i..i + |text|] == text
    && (forall k :: 0 <= k < i ==> s[k] != '{')
    && (forall k :: i + |text| <= k < |s| ==> s[k] != '}')
  }

  /** `geoContent.match(/\{[\s\S]*\}/)`, `None` when there is no match. */
  function ExtractJson(reply: string): (json: Option<string>)
    ensures json.None? <==> forall i, j :: !BracePair(reply, i, j)
    ensures json.Some? ==> |json.value| >= 2 && json.value[0] == '{' && json.value[|json.value| - 1] == '}'
    ensures json.Some? ==> exists i :: OutermostAt(reply, i, json.value)
  {
    match JsonSpan(reply)
    case None => None
    case Some((i, j)) =>
      var text := reply[i..j + 1];
      assert OutermostAt(reply, i, text) by {
        forall k | 0 <= k < i ensures reply[k] != '{' {
          assert !BracePair(reply, k, j);
        }
        forall k | j + 1 <= k < |reply| ensures reply[k] != '}' {
          assert !BracePair(reply, i, k);
        }
      }
      Some(text)
  }

  // ---------------------------------------------------------------------------
  // The outside world

  /** A JSON number that may be `null`/`undefined`; floats are kept as reals. */
  type Coordinate = Option<real>

  /** JavaScript truthiness of a coordinate: `null`, `undefined` and `0` are falsy. */
  predicate Truthy(c: Coordinate) {
    c.Some? && c.value != 0.0
  }

  datatype Coords = Coords(lat: Coordinate, lon: Coordinate)

  /** `weatherData.current`: the temperature stays opaque text. */
  datatype CurrentWeather = CurrentWeather(temperature: string, code: int)

  /** What `getWeatherFromAPI` resolves to. */
  datatype WeatherReport = WeatherReport(weather: string, coords: Coords)

  type PlaceId = string

  /** A Places text search: `<location> <keyword>` around `coords` within `radius` metres. */
  datatype PlaceQuery = PlaceQuery(location: string, keyword: string, coords: Coords, radius: nat)

  /** The fields of a Places details reply that the source reads. */
  datatype PlaceDetails = PlaceDetails(
    name: string, rating: Option<real>, reviewCount: Option<int>, address: string, priceLevel: Option<int>)

  /** What the summary prompts embed. */
  datatype Prompt =
    | RestaurantPrompt(name: string, rating: Option<real>, reviewCount: Option<int>, price: string,
                       address: string, mood: string, companions: string, atmosphere: string)
    | CafePrompt(name: string, rating: Option<real>, reviewCount: Option<int>,
                 mood: string, companions: string, atmosphere: string)

  /**
   * A Places request whose errors are not caught: the body read from an ok
   * response, a response that is not ok, or the message of an error thrown
   * on the way (a rejected `fetch`, a body that is not JSON, or a details
   * reply without `result`, whose `price_level` cannot be read).
   */
  datatype Call<T> = Answered(body: T) | NotOk | Threw(message: string)

  /**
   * The outside calls, each from what is sent to what comes back:
   * geocode: the chat reply for a location (None: non-ok, no choices, or a throw);
   * parseCoords: `JSON.parse` and destructuring of `{lat, lon}` (None: it throws);
   * weather: Open-Meteo's `current` block (None: non-ok, malformed, or a throw);
   * textSearch: the place ids of the results in rank order, empty when `results` is absent;
   * placeDetails: the details `result`;
   * summarize: the trimmed chat reply, or the message of the error thrown reading it.
   * The weather step catches every error, so its calls need no message.
   */
  datatype Services = Services(
    geocode: string -> Option<string>,
    parseCoords: string -> Option<Coords>,
    weather: Coords -> Option<CurrentWeather>,
    textSearch: PlaceQuery -> Call<seq<PlaceId>>,
    placeDetails: PlaceId -> Call<PlaceDetails>,
    summarize: Prompt -> Result<string, string>)

  /** The API keys read from the environment; "" when unset. */
  datatype Config = Config(openAiKey: string, mapsKey: string)

  // ---------------------------------------------------------------------------
  // Weather step

  const WeatherFetchFailed: string := "날씨 정보 불러오기 실패"

  /** Geocoding: the chat reply, its JSON substring, and the parse of it. */
  function GeoCoords(location: string, svc: Services): (coords: Option<Coords>)
    ensures coords.Some? ==>
      svc.geocode(location).Some? && ExtractJson(svc.geocode(location).value).Some?
      && svc.parseCoords(ExtractJson(svc.geocode(location).value).value) == coords
    ensures svc.geocode(location).Some? && ExtractJson(svc.geocode(location).value).Some? ==>
      coords == svc.parseCoords(ExtractJson(svc.geocode(location).value).value)
  {
    match svc.geocode(location)
    case None => None
    case Some(reply) =>
      match ExtractJson(reply)
      case None => None
      case Some(json) => svc.parseCoords(json)
  }

  /** `getWeatherFromAPI`: never fails; any failure becomes the fixed text with null coordinates. */
  function GetWeather(location: string, svc: Services): (report: WeatherReport)
    ensures report.weather == WeatherFetchFailed <==>
      GeoCoords(location, svc).None? || svc.weather(GeoCoords(location, svc).value).None?
    ensures report.weather == WeatherFetchFailed ==> report.coords == Coords(None, None)
    ensures report.weather != WeatherFetchFailed ==>
      && GeoCoords(location, svc) == Some(report.coords)
      && svc.weather(report.coords).Some?
      && var code := svc.weather(report.coords).value.code;
         |WeatherDescription(code)| <= |report.weather|
         && report.weather[..|WeatherDescription(code)|] == WeatherDescription(code)
  {
    match GeoCoords(location, svc)
    case None => WeatherReport(WeatherFetchFailed, Coords(None, None))
    case Some(coords) =>
      match svc.weather(coords)
      case None => WeatherReport(WeatherFetchFailed, Coords(None, None))
      case Some(current) =>
        var text := WeatherDescription(current.code) + " " + current.temperature + "℃";
        assert text[|text| - 1] == '℃' && WeatherFetchFailed[|WeatherFetchFailed| - 1] != '℃';
        WeatherReport(text, coords)
  }

  // ---------------------------------------------------------------------------
  // Place steps

  const MapsKeyMissing: string := "GOOGLE_MAPS_API_KEY is not configured"
  const OpenAiKeyMissing: string := "OPENAI_API_KEY is not configured"
  const SearchFailed: string := "Google Places search failed"
  const DetailsFailed: string := "Google Places details failed"
  const NoRestaurant: string := "No restaurant found"
  const NoCafe: string := "No cafe found"
  const CafeKeyword: string := "카페"
  const CafeDistance: string := "도보 5분"

  function MapLink(place: PlaceId): string {
    "https://www.google.com/maps/place/?q=place_id:" + place
  }

  datatype Restaurant = Restaurant(
    name: string, aiSummary: string, rating: Option<real>, reviewCount: Option<int>,
    estimatedPrice: string, mapLink: string, detailLink: string)

  datatype Cafe = Cafe(
    name: string, aiAnalysis: string, rating: Option<real>, estimatedPrice: string,
    mapLink: string, detailLink: string, distanceFromRestaurant: string)

  function RestaurantQuery(location: string, category: string, coords: Coords): PlaceQuery {
    PlaceQuery(location, CategoryQuery(category), coords, 5000)
  }

  function CafeQuery(location: string, coords: Coords): PlaceQuery {
    PlaceQuery(location, CafeKeyword, coords, 3000)
  }

  /** `searchRestaurantWithGoogle`: the first ranked result, its details, and a summary. */
  function SearchRestaurant(
    location: string, coords: Coords, category: string, mood: string, companions: string,
    budget: int, atmosphere: string, mapsKey: string, svc: Services): (r: Result<Restaurant, string>)
    ensures mapsKey == "" ==> r == Failure(MapsKeyMissing)
    ensures mapsKey != "" ==>
      var search := svc.textSearch(RestaurantQuery(location, category, coords));
      && (search.NotOk? ==> r == Failure(SearchFailed))
      && (search.Threw? ==> r == Failure(search.message))
      && (search == Answered([]) ==> r == Failure(NoRestaurant))
      && (search.Answered? && |search.body| > 0 ==>
            var details := svc.placeDetails(search.body[0]);
            && (details.NotOk? ==> r == Failure(DetailsFailed))
            && (details.Threw? ==> r == Failure(details.message))
            && (details.Answered? ==>
                  var d := details.body;
                  var answer := svc.summarize(RestaurantPrompt(d.name, d.rating, d.reviewCount,
                                                               RestaurantPrice(d.priceLevel, budget), d.address,
                                                               mood, companions, atmosphere));
                  && (answer.Failure? ==> r == Failure(answer.error))
                  && (answer.Success? ==> r.Success?)))
    ensures r.Success? ==>
      var results := svc.textSearch(RestaurantQuery(location, category, coords));
      && results.Answered? && |results.body| > 0
      && var details := svc.placeDetails(results.body[0]);
         && details.Answered?
         && r.value.name == details.body.name
         && r.value.rating == details.body.rating && r.value.reviewCount == details.body.reviewCount
         && r.value.estimatedPrice == RestaurantPrice(details.body.priceLevel, budget)
         && r.value.mapLink == r.value.detailLink == MapLink(results.body[0])
         && svc.summarize(RestaurantPrompt(details.body.name, details.body.rating, details.body.reviewCount,
                                           r.value.estimatedPrice, details.body.address,
                                           mood, companions, atmosphere)) == Success(r.value.aiSummary)
  {
    if mapsKey == "" then Failure(MapsKeyMissing)
    else
      match svc.textSearch(RestaurantQuery(location, category, coords))
      case NotOk => Failure(SearchFailed)
      case Threw(message) => Failure(message)
      case Answered(results) =>
        if |results| == 0 then Failure(NoRestaurant)
        else
          var place := results[0];
          match svc.placeDetails(place)
          case NotOk => Failure(DetailsFailed)
          case Threw(message) => Failure(message)
          case Answered(details) =>
            var price := RestaurantPrice(details.priceLevel, budget);
            var prompt := RestaurantPrompt(details.name, details.rating, details.reviewCount, price,
                                           details.address, mood, companions, atmosphere);
            match svc.summarize(prompt)
            case Failure(e) => Failure(e)
            case Success(summary) =>
              Success(Restaurant(details.name, summary, details.rating, details.reviewCount, price,
                                 MapLink(place), MapLink(place)))
  }

  /** `searchCafeWithGoogle`: as for restaurants, with a fixed keyword, price fallback and distance. */
  function SearchCafe(
    location: string, coords: Coords, mood: string, companions: string, atmosphere: string,
    mapsKey: string, svc: Services): (r: Result<Cafe, string>)
    ensures mapsKey == "" ==> r == Failure(MapsKeyMissing)
    ensures mapsKey != "" ==>
      var search := svc.textSearch(CafeQuery(location, coords));
      && (search.NotOk? ==> r == Failure(SearchFailed))
      && (search.Threw? ==> r == Failure(search.message))
      && (search == Answered([]) ==> r == Failure(NoCafe))
      && (search.Answered? && |search.body| > 0 ==>
            var details := svc.placeDetails(search.body[0]);
            && (details.NotOk? ==> r == Failure(DetailsFailed))
            && (details.Threw? ==> r == Failure(details.message))
            && (details.Answered? ==>
                  var d := details.body;
                  var answer := svc.summarize(CafePrompt(d.name, d.rating, d.reviewCount, mood, companions, atmosphere));
                  && (answer.Failure? ==> r == Failure(answer.error))
                  && (answer.Success? ==> r.Success?)))
    ensures r.Success? ==>
      var results := svc.textSearch(CafeQuery(location, coords));
      && results.Answered? && |results.body| > 0
      && var details := svc.placeDetails(results.body[0]);
         && details.Answered?
         && r.value.name == details.body.name
         && r.value.rating == details.body.rating
         && r.value.estimatedPrice == CafePrice(details.body.priceLevel)
         && r.value.mapLink == r.value.detailLink == MapLink(results.body[0])
         && r.value.distanceFromRestaurant == CafeDistance
         && svc.summarize(CafePrompt(details.body.name, details.body.rating, details.body.reviewCount,
                                     mood, companions, atmosphere)) == Success(r.value.aiAnalysis)
  {
    if mapsKey == "" then Failure(MapsKeyMissing)
    else
      match svc.textSearch(CafeQuery(location, coords))
      case NotOk => Failure(SearchFailed)
      case Threw(message) => Failure(message)
      case Answered(results) =>
        if |results| == 0 then Failure(NoCafe)
        else
          var place := results[0];
          match svc.placeDetails(place)
          case NotOk => Failure(DetailsFailed)
          case Threw(message) => Failure(message)
          case Answered(details) =>
            var price := CafePrice(details.priceLevel);
            var prompt := CafePrompt(details.name, details.rating, details.reviewCount,
                                     mood, companions, atmosphere);
            match svc.summarize(prompt)
            case Failure(e) => Failure(e)
            case Success(analysis) =>
              Success(Cafe(details.name, analysis, details.rating, price,
                           MapLink(place), MapLink(place), CafeDistance))
  }

  /**
   * The budget reaches the restaurant step only through the price fallback:
   * when every details reply lists a price level, two budgets give the same outcome.
   */
  lemma RestaurantIgnoresBudgetWithLevel(
    location: string, coords: Coords, category: string, mood: string, companions: string,
    budget1: int, budget2: int, atmosphere: string, mapsKey: string, svc: Services)
    requires forall place :: svc.placeDetails(place).Answered? ==> KnownLevel(svc.placeDetails(place).body.priceLevel)
    ensures SearchRestaurant(location, coords, category, mood, companions, budget1, atmosphere, mapsKey, svc)
         == SearchRestaurant(location, coords, category, mood, companions, budget2, atmosphere, mapsKey, svc)
  {
    var search := svc.textSearch(RestaurantQuery(location, category, coords));
    if mapsKey != "" && search.Answered? && |search.body| > 0 {
      var details := svc.placeDetails(search.body[0]);
      if details.Answered? {
        RestaurantPriceIgnoresBudget(details.body.priceLevel, budget1, budget2);
      }
    }
  }

  // ---------------------------------------------------------------------------
  // Pick reason

  function DigitChar(d: nat): (c: char)
    requires d < 10
    ensures '0' <= c <= '9' && c as int - '0' as int == d
  {
    ('0' as int + d) as char
  }

  predicate AllDigits(s: string) {
    forall i :: 0 <= i < |s| ==> '0' <= s[i] <= '9'
  }

  /** The decimal digits of `n`, without leading zeros (JavaScript's `String(n)`). */
  function NatToDecimal(n: nat): (s: string)
    ensures |s| >= 1 && AllDigits(s)
    ensures |s| > 1 ==> s[0] != '0'
  {
    if n < 10 then [DigitChar(n)] else NatToDecimal(n / 10) + [DigitChar(n % 10)]
  }

  /** The number a string of decimal digits denotes. */
  function DecimalValue(s: string): nat
    requires AllDigits(s)
  {
    if |s| == 0 then 0 else 10 * DecimalValue(s[..|s| - 1]) + (s[|s| - 1] as int - '0' as int)
  }

  /** Reading back the printed number gives the number. */
  lemma {:induction false} DecimalRoundTrip(n: nat)
    ensures DecimalValue(NatToDecimal(n)) == n
  {
    if n >= 10 {
      DecimalRoundTrip(n / 10);
      var s := NatToDecimal(n);
      assert s[..|s| - 1] == NatToDecimal(n / 10);
    }
  }

  /** `${budget}` for an integer budget: its canonical decimal, which reads back as the budget. */
  function IntToDecimal(n: int): (s: string)
    ensures n >= 0 ==> |s| >= 1 && AllDigits(s) && DecimalValue(s) == n && (|s| > 1 ==> s[0] != '0')
    ensures n < 0 ==>
      && |s| >= 2 && s[0] == '-' && AllDigits(s[1..]) && DecimalValue(s[1..]) == -n
      && (|s| > 2 ==> s[1] != '0')
  {
    if n < 0 then
      var digits := NatToDecimal(-n);
      DecimalRoundTrip(-n);
      assert ("-" + digits)[1..] == digits;
      "-" + digits
    else
      DecimalRoundTrip(n);
      NatToDecimal(n)
  }

  datatype RecommendInput = RecommendInput(
    location: string, mood: string, category: string, companions: string, budget: int, atmosphere: string)

  const LocationLabel: string := "현재 위치: "

  /** The strings `parts` joined in order. */
  function Concat(parts: seq<string>): string {
    if |parts| == 0 then "" else Concat(parts[..|parts| - 1]) + parts[|parts| - 1]
  }

  /** Where `parts[k]` starts inside `Concat(parts)`. */
  function Offset(parts: seq<string>, k: nat): nat
    requires k <= |parts|
  {
    |Concat(parts[..k])|
  }

  /** Each part can be read back, verbatim, at its offset. */
  lemma {:induction false} ConcatSlice(parts: seq<string>, k: nat)
    requires k < |parts|
    ensures Offset(parts, k) + |parts[k]| <= |Concat(parts)|
    ensures Concat(parts)[Offset(parts, k)..Offset(parts, k) + |parts[k]|] == parts[k]
  {
    var init := parts[..|parts| - 1];
    if k == |parts| - 1 {
      assert parts[..k] == init;
    } else {
      ConcatSlice(init, k);
      assert init[..k] == parts[..k];
    }
  }

  lemma ConcatSlices(parts: seq<string>)
    ensures forall k :: 0 <= k < |parts| ==>
      Offset(parts, k) + |parts[k]| <= |Concat(parts)|
      && Concat(parts)[Offset(parts, k)..Offset(parts, k) + |parts[k]|] == parts[k]
  {
    forall k | 0 <= k < |parts|
      ensures Offset(parts, k) + |parts[k]| <= |Concat(parts)|
      ensures Concat(parts)[Offset(parts, k)..Offset(parts, k) + |parts[k]|] == parts[k]
    {
      ConcatSlice(parts, k);
    }
  }

  /** The template's pieces: each label followed by the user's choice, in the template's order. */
  function ReasonParts(q: RecommendInput): (parts: seq<string>)
    ensures |parts| == 12
  {
    [LocationLabel, q.location, ", 기분: ", q.mood, ", 카테고리: ", q.category, ", 목적: ", q.companions,
     ", 예산: ", IntToDecimal(q.budget), "원, 분위기: ", q.atmosphere]
  }

  /** The fixed-format summary of the user's choices: every piece of the template, verbatim, at its offset. */
  function PickReason(q: RecommendInput): (reason: string)
    ensures forall k :: 0 <= k < |ReasonParts(q)| ==>
      Offset(ReasonParts(q), k) + |ReasonParts(q)[k]| <= |reason|
      && reason[Offset(ReasonParts(q), k)..Offset(ReasonParts(q), k) + |ReasonParts(q)[k]|] == ReasonParts(q)[k]
    ensures |reason| == Offset(ReasonParts(q), |ReasonParts(q)|)
  {
    var parts := ReasonParts(q);
    ConcatSlices(parts);
    assert parts[..|parts|] == parts;
    Concat(parts)
  }

  // ---------------------------------------------------------------------------
  // The pipeline

  datatype Summary = Summary(weather: string, pickReason: string)
  datatype RecData = RecData(summary: Summary, restaurant: Restaurant, cafe: Cafe)

  const NoCoordinates: string := "Failed to get location coordinates"

  /** `realRecommend`: each step a hard dependency on the previous one. */
  function RealRecommend(cfg: Config, q: RecommendInput, svc: Services): (r: Result<RecData, string>)
    ensures cfg.openAiKey == "" ==> r == Failure(OpenAiKeyMissing)
    ensures cfg.openAiKey != "" && cfg.mapsKey == "" ==> r == Failure(MapsKeyMissing)
    ensures r.Success? ==>
      var w := GetWeather(q.location, svc);
      && Truthy(w.coords.lat) && Truthy(w.coords.lon)
      && r.value.summary == Summary(w.weather, PickReason(q))
      && SearchRestaurant(q.location, w.coords, q.category, q.mood, q.companions, q.budget, q.atmosphere,
                          cfg.mapsKey, svc) == Success(r.value.restaurant)
      && SearchCafe(q.location, w.coords, q.mood, q.companions, q.atmosphere, cfg.mapsKey, svc)
         == Success(r.value.cafe)
      && r.value.cafe.distanceFromRestaurant == CafeDistance
    ensures cfg.openAiKey != "" && cfg.mapsKey != "" ==>
      var w := GetWeather(q.location, svc);
      Truthy(w.coords.lat) && Truthy(w.coords.lon) ==>
        var restaurant := SearchRestaurant(q.location, w.coords, q.category, q.mood, q.companions, q.budget,
                                           q.atmosphere, cfg.mapsKey, svc);
        var cafe := SearchCafe(q.location, w.coords, q.mood, q.companions, q.atmosphere, cfg.mapsKey, svc);
        && (restaurant.Failure? ==> r == Failure(restaurant.error))
        && (restaurant.Success? && cafe.Failure? ==> r == Failure(cafe.error))
        && (restaurant.Success? && cafe.Success? ==>
              r == Success(RecData(Summary(w.weather, PickReason(q)), restaurant.value, cafe.value)))
  {
    if cfg.openAiKey == "" then Failure(OpenAiKeyMissing)
    else if cfg.mapsKey == "" then Failure(MapsKeyMissing)
    else
      var w := GetWeather(q.location, svc);
      if !Truthy(w.coords.lat) || !Truthy(w.coords.lon) then Failure(NoCoordinates)
      else
        match SearchRestaurant(q.location, w.coords, q.category, q.mood, q.companions, q.budget,
                               q.atmosphere, cfg.mapsKey, svc)
        case Failure(e) => Failure(e)
        case Success(restaurant) =>
          match SearchCafe(q.location, w.coords, q.mood, q.companions, q.atmosphere, cfg.mapsKey, svc)
          case Failure(e) => Failure(e)
          case Success(cafe) => Success(RecData(Summary(w.weather, PickReason(q)), restaurant, cafe))
  }

  /** A missing key fails before any outside call: the services cannot change the outcome. */
  lemma MissingKeyPrecedesCalls(cfg: Config, q: RecommendInput, svc1: Services, svc2: Services)
    requires cfg.openAiKey == "" || cfg.mapsKey == ""
    ensures RealRecommend(cfg, q, svc1) == RealRecommend(cfg, q, svc2)
    ensures RealRecommend(cfg, q, svc1).Failure?
  {
  }

  /** A failed weather step, or a coordinate that is missing or exactly 0, aborts the pipeline. */
  lemma FalsyCoordinateAborts(cfg: Config, q: RecommendInput, svc: Services)
    requires cfg.openAiKey != "" && cfg.mapsKey != ""
    requires var w := GetWeather(q.location, svc);
      w.weather == WeatherFetchFailed || !Truthy(w.coords.lat) || !Truthy(w.coords.lon)
    ensures RealRecommend(cfg, q, svc) == Failure(NoCoordinates)
  {
  }
}
