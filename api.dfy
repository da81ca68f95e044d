/**
 * The two provider adapters of src/utils/api.ts, with the HTTP round trip
 * abstracted away: each function receives the provider's decoded JSON body
 * and reshapes it the way the TypeScript code does.
 *
 * A property access on `undefined` throws a TypeError in the source; here
 * every such dereference that the payload can make fail becomes an `Err`.
 */
module Api {
  import opened Wrappers

  // ---------------------------------------------------------------------
  // Weather provider payload (the fields the adapter reads)
  // ---------------------------------------------------------------------

  datatype City = City(name: string, country: string)

  /** One element of a slot's `weather` array. */
  datatype Condition = Condition(description: string, icon: string)

  /** One three-hourly slot of `data.list`; `dt` is a Unix time in seconds. */
  datatype Slot = Slot(dt: int, temp: real, humidity: int, weather: seq<Condition>, windSpeed: real)

  datatype ForecastPayload = ForecastPayload(city: Option<City>, list: seq<Slot>)

  // ---------------------------------------------------------------------
  // Reshaped weather report
  // ---------------------------------------------------------------------

  datatype ForecastDay = ForecastDay(date: string, temperature: int, description: string, icon: string)

  datatype WeatherData = WeatherData(
    city: string,
    country: string,
    temperature: int,
    description: string,
    icon: string,
    humidity: int,
    windSpeed: int,
    forecast: seq<ForecastDay>)

  /** The TypeError the reshaping raises, named after what was missing. */
  datatype Failure = MissingCity | EmptyList | MissingCondition(slot: nat)

  /** `Math.round`: the nearest integer, halves rounded up. */
  function Round(x: real): (r: int)
    ensures x - 0.5 < r as real <= x + 0.5
  {
    (x + 0.5).Floor
  }

  /** The filter predicate of the forecast chain: one slot in eight, plus slot 39. */
  predicate Kept(i: nat)
  {
    i % 8 == 0 || i == 39
  }

  predicate StrictlyIncreasing(s: seq<nat>)
  {
    forall j, k :: 0 <= j < k < |s| ==> s[j] < s[k]
  }

  /** The indices below `n` that the filter keeps, in list order. */
  function KeptIndices(n: nat): (r: seq<nat>)
    ensures forall k :: 0 <= k < |r| ==> r[k] < n && Kept(r[k])
  {
    if n == 0 then [] else KeptIndices(n - 1) + (if Kept(n - 1) then [n - 1] else [])
  }

  /** `filter` preserves list order, so the kept indices come out strictly increasing. */
  lemma {:induction false} KeptIndicesIncreasing(n: nat)
    ensures StrictlyIncreasing(KeptIndices(n))
  {
    if n > 0 {
      KeptIndicesIncreasing(n - 1);
    }
  }

  /** `Array.prototype.slice(begin, end)` for non-negative bounds. */
  function Slice<T>(s: seq<T>, begin: nat, end: nat): (r: seq<T>)
    ensures |r| == if end <= begin || |s| <= begin then 0 else Min(end, |s|) - begin
    ensures forall k :: 0 <= k < |r| ==> r[k] == s[begin + k]
  {
    var lo := Min(begin, |s|);
    var hi := Min(end, |s|);
    if hi <= lo then [] else s[lo..hi]
  }

  function Min(a: int, b: int): int
  {
    if a <= b then a else b
  }

  /** The list indices the forecast is built from: the kept ones, minus the first, at most five. */
  function ForecastIndices(n: nat): (r: seq<nat>)
    ensures |r| <= 5
    ensures forall k :: 0 <= k < |r| ==> 0 < r[k] < n && Kept(r[k])
    ensures StrictlyIncreasing(r)
  {
    var kept := KeptIndices(n);
    KeptIndicesIncreasing(n);
    assert forall k :: 1 <= k < |kept| ==> kept[0] < kept[k];
    Slice(kept, 1, 6)
  }

  /** One forecast entry, read from a slot whose `weather` array is not empty. */
  function Day(slot: Slot, weekday: int -> string): ForecastDay
    requires |slot.weather| > 0
  {
    ForecastDay(weekday(slot.dt * 1000), Round(slot.temp), slot.weather[0].description, slot.weather[0].icon)
  }

  /**
   * The `.map` of lines 35-40 over the selected slots `list[ix[0]], list[ix[1]], ...`;
   * it throws at the first selected slot whose `weather` array is empty.
   */
  function MapForecast(list: seq<Slot>, ix: seq<nat>, weekday: int -> string): (r: Result<seq<ForecastDay>, Failure>)
    requires forall k :: 0 <= k < |ix| ==> ix[k] < |list|
    ensures r.Ok? <==> forall k :: 0 <= k < |ix| ==> |list[ix[k]].weather| > 0
    ensures r.Ok? ==> |r.value| == |ix|
    ensures r.Ok? ==> forall k :: 0 <= k < |ix| ==> r.value[k] == Day(list[ix[k]], weekday)
    ensures r.Err? ==> exists k :: 0 <= k < |ix| && r.error == MissingCondition(ix[k]) && list[ix[k]].weather == []
  {
    if ix == [] then Ok([])
    else if list[ix[0]].weather == [] then Err(MissingCondition(ix[0]))
    else
      match MapForecast(list, ix[1..], weekday)
      case Err(e) => Err(e)
      case Ok(rest) => Ok([Day(list[ix[0]], weekday)] + rest)
  }

  /**
   * `getWeatherData` after `response.json()`: current conditions from slot 0,
   * forecast from the slots `ForecastIndices` selects. The object literal is
   * evaluated in field order, so the first missing field decides the failure.
   */
  function GetWeatherData(data: ForecastPayload, weekday: int -> string): (r: Result<WeatherData, Failure>)
    ensures r.Ok? <==>
      data.city.Some? && |data.list| > 0 && |data.list[0].weather| > 0 &&
      forall k :: 0 <= k < |ForecastIndices(|data.list|)| ==> |data.list[ForecastIndices(|data.list|)[k]].weather| > 0
    ensures data.list == [] ==> r.Err?
    ensures r.Ok? ==>
      var w, now := r.value, data.list[0];
      w.city == data.city.value.name && w.country == data.city.value.country &&
      w.temperature == Round(now.temp) && w.humidity == now.humidity &&
      w.windSpeed == Round(now.windSpeed) &&
      w.description == now.weather[0].description && w.icon == now.weather[0].icon
    ensures r.Ok? ==>
      var ix := ForecastIndices(|data.list|);
      |r.value.forecast| == |ix| <= 5 &&
      forall k :: 0 <= k < |ix| ==> r.value.forecast[k] == Day(data.list[ix[k]], weekday)
  {
    if data.city.None? then Err(MissingCity)
    else if data.list == [] then Err(EmptyList)
    else if data.list[0].weather == [] then Err(MissingCondition(0))
    else
      var now := data.list[0];
      match MapForecast(data.list, ForecastIndices(|data.list|), weekday)
      case Err(e) => Err(e)
      case Ok(days) =>
        Ok(WeatherData(
          data.city.value.name, data.city.value.country,
          Round(now.temp), now.weather[0].description, now.weather[0].icon,
          now.humidity, Round(now.windSpeed), days))
  }

  // ---------------------------------------------------------------------
  // Properties of the forecast selection
  // ---------------------------------------------------------------------

  /** The filter keeps an index exactly when it is in range and passes the predicate. */
  lemma {:induction false} KeptIndicesExact(n: nat, i: nat)
    ensures i in KeptIndices(n) <==> i < n && Kept(i)
  {
    if n > 0 {
      KeptIndicesExact(n - 1, i);
    }
  }

  /** How many of the first `n` slots the filter keeps. */
  lemma {:induction false} KeptCount(n: nat)
    ensures |KeptIndices(n)| == (n + 7) / 8 + (if n >= 40 then 1 else 0)
  {
    if n > 0 {
      KeptCount(n - 1);
      var q, r := (n - 1) / 8, (n - 1) % 8;
      assert n - 1 == 8 * q + r;
      assert (n + 7) / 8 == q + 1;
      assert (n + 6) / 8 == if r == 0 then q else q + 1;
      assert Kept(n - 1) <==> r == 0 || n == 40;
    }
  }

  /** The forecast holds the second to sixth kept slots: `min(5, k - 1)` of them for `k` kept. */
  lemma ForecastLength(n: nat)
    ensures var k := |KeptIndices(n)|;
      |ForecastIndices(n)| == if k <= 1 then 0 else Min(5, k - 1)
    ensures forall j :: 0 <= j < |ForecastIndices(n)| ==> ForecastIndices(n)[j] == KeptIndices(n)[j + 1]
  {
  }

  /** Below slot 39 the filter keeps exactly the multiples of eight. */
  lemma {:induction false} KeptBelow40(n: nat)
    requires n < 40
    ensures |KeptIndices(n)| == (n + 7) / 8
    ensures forall j :: 0 <= j < |KeptIndices(n)| ==> KeptIndices(n)[j] == 8 * j
  {
    if n > 0 {
      KeptBelow40(n - 1);
      var q, r := (n - 1) / 8, (n - 1) % 8;
      assert n - 1 == 8 * q + r;
      assert (n + 7) / 8 == q + 1;
      assert (n + 6) / 8 == if r == 0 then q else q + 1;
    }
  }

  /** Just short of slot 39, the filter keeps one slot per day. */
  lemma ThirtyNineSlots(n: nat)
    requires n == 39
    ensures KeptIndices(n) == [0, 8, 16, 24, 32]
  {
    KeptBelow40(n);
    assert (n + 7) / 8 == 5;
    var kept := KeptIndices(n);
    assert kept[0] == 0 && kept[1] == 8 && kept[2] == 16 && kept[3] == 24 && kept[4] == 32;
  }

  /** The provider's usual 40-slot payload gives exactly slots 8, 16, 24, 32 and 39. */
  lemma FortySlots(n: nat)
    requires n == 40
    ensures KeptIndices(n) == [0, 8, 16, 24, 32, 39]
    ensures ForecastIndices(n) == [8, 16, 24, 32, 39]
  {
    ThirtyNineSlots(n - 1);
    assert Kept(n - 1);
  }

  /** A 16-slot payload gives a one-day forecast. */
  lemma SixteenSlots(n: nat)
    requires n == 16
    ensures ForecastIndices(n) == [8]
  {
    KeptBelow40(n);
    var kept := KeptIndices(n);
    assert kept[0] == 0 && kept[1] == 8;
  }

  /** With 33 to 39 slots slot 39 is absent and only four days remain. */
  lemma ShortPayload(n: nat)
    requires 33 <= n < 40
    ensures |ForecastIndices(n)| == 4
  {
    KeptCount(n);
  }

  // ---------------------------------------------------------------------
  // Geocoding provider
  // ---------------------------------------------------------------------

  datatype Geometry = Geometry(lat: real, lng: real)

  /** One element of the geocoder's `results` array. */
  datatype GeocodeResult = GeocodeResult(geometry: Geometry, formatted: string)

  /** A location the search box offers: the `{lat, lon, display_name}` object. */
  datatype Candidate = Candidate(lat: real, lon: real, displayName: string)

  /** `searchLocation` after `response.json()`: `data.results.map(...)`. */
  function SearchLocation(results: seq<GeocodeResult>): (r: seq<Candidate>)
    ensures |r| == |results|
    ensures forall k :: 0 <= k < |r| ==>
      r[k].lat == results[k].geometry.lat && r[k].lon == results[k].geometry.lng &&
      r[k].displayName == results[k].formatted
  {
    if results == [] then []
    else [Candidate(results[0].geometry.lat, results[0].geometry.lng, results[0].formatted)] + SearchLocation(results[1..])
  }

  /** The mapping keeps provider order: it distributes over concatenation. */
  lemma SearchLocationAppend(a: seq<GeocodeResult>, b: seq<GeocodeResult>)
    ensures SearchLocation(a + b) == SearchLocation(a) + SearchLocation(b)
  {
  }
}
