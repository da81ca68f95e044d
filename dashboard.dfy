/**
 * The dashboard page of src/app/page.tsx: which coordinates the geolocation
 * effect fetches, the `isLoading` / `weatherData` state that `fetchWeather`
 * drives, and the three-way choice of what is rendered under the search box.
 */
module Dashboard {
  import opened Wrappers
  import opened Api
  import Search

  /** London, the fallback when geolocation reports an error. */
  const DefaultLat: real := 51.5074
  const DefaultLon: real := -0.1278

  datatype Coordinates = Coordinates(lat: real, lon: real)

  const Default := Coordinates(DefaultLat, DefaultLon)

  /** What `useGeolocation` returns: `null` fields are `None`. */
  datatype Geolocation = Geolocation(latitude: Option<real>, longitude: Option<real>, error: Option<string>)

  /** JavaScript truthiness of a `number | null` (NaN is not modelled). */
  predicate TruthyNumber(x: Option<real>)
  {
    x.Some? && x.value != 0.0
  }

  /** JavaScript truthiness of a `string | null`. */
  predicate TruthyString(x: Option<string>)
  {
    x.Some? && x.value != ""
  }

  /** The geolocation effect's decision: the coordinates it fetches, if any. */
  function ChooseCoordinates(g: Geolocation): (c: Option<Coordinates>)
    ensures c.Some? <==> (TruthyNumber(g.latitude) && TruthyNumber(g.longitude)) || TruthyString(g.error)
  {
    if TruthyNumber(g.latitude) && TruthyNumber(g.longitude) then
      Some(Coordinates(g.latitude.value, g.longitude.value))
    else if TruthyString(g.error) then
      Some(Default)
    else
      None
  }

  /**
   * Whatever is fetched is either a geolocated pair with both parts present
   * and non-zero, or the default; the default only when the position is
   * unusable and an error was reported.
   */
  lemma ChosenCoordinatesAreSound(g: Geolocation)
    ensures var c := ChooseCoordinates(g);
      c.Some? ==>
        (g.latitude == Some(c.value.lat) && g.longitude == Some(c.value.lon) && c.value.lat != 0.0 && c.value.lon != 0.0) ||
        (c.value == Default && TruthyString(g.error))
    ensures TruthyNumber(g.latitude) && TruthyNumber(g.longitude) ==>
      ChooseCoordinates(g) == Some(Coordinates(g.latitude.value, g.longitude.value))
  {
  }

  /** Geolocation denied: the page fetches London. */
  lemma DeniedFetchesDefault(message: string)
    requires message != ""
    ensures ChooseCoordinates(Geolocation(None, None, Some(message))) == Some(Default)
  {
  }

  /**
   * A position on the equator or the prime meridian counts as absent: with
   * no error alongside it nothing is fetched.
   */
  lemma ZeroCoordinateFetchesNothing(lat: real, lon: real)
    requires lat == 0.0 || lon == 0.0
    ensures ChooseCoordinates(Geolocation(Some(lat), Some(lon), None)) == None
  {
  }

  /** What the page shows under the search box. */
  datatype View = Spinner | Report(data: WeatherData) | Nothing

  function Render(isLoading: bool, weatherData: Option<WeatherData>): (v: View)
    ensures v.Spinner? <==> isLoading
    ensures v.Report? <==> !isLoading && weatherData.Some?
    ensures v.Report? ==> v.data == weatherData.value
  {
    if isLoading then Spinner
    else if weatherData.Some? then Report(weatherData.value)
    else Nothing
  }

  /**
   * The report after a `getWeatherData` call settles: `response` is the
   * provider's decoded body, `None` when the request or the JSON decoding
   * threw. A failure keeps the previous report.
   */
  function Settled(previous: Option<WeatherData>, response: Option<ForecastPayload>, weekday: int -> string): (r: Option<WeatherData>)
    ensures response.None? ==> r == previous
    ensures response.Some? && GetWeatherData(response.value, weekday).Err? ==> r == previous
    ensures response.Some? && GetWeatherData(response.value, weekday).Ok? ==>
      r == Some(GetWeatherData(response.value, weekday).value)
  {
    match response
    case None => previous
    case Some(payload) =>
      match GetWeatherData(payload, weekday)
      case Ok(data) => Some(data)
      case Err(_) => previous
  }

  /** The `Home` component's state. */
  class Home {
    var weatherData: Option<WeatherData>
    var isLoading: bool
    ghost var requests: seq<Coordinates>    // every pair passed to `getWeatherData`, oldest first

    /** The initial render: the spinner, no report. */
    constructor ()
      ensures weatherData == None && isLoading && requests == []
      ensures View() == Spinner
    {
      weatherData := None;
      isLoading := true;
      requests := [];
    }

    function View(): View
      reads this
    {
      Render(isLoading, weatherData)
    }

    /** `fetchWeather` up to its `await`: the spinner comes on and the request goes out. */
    method FetchWeather(lat: real, lon: real)
      modifies this
      ensures isLoading && weatherData == old(weatherData)
      ensures requests == old(requests) + [Coordinates(lat, lon)]
      ensures View() == Spinner
    {
      isLoading := true;
      requests := requests + [Coordinates(lat, lon)];
    }

    /** `fetchWeather` after its `await`: store a report on success, and always stop loading. */
    method WeatherArrived(response: Option<ForecastPayload>, weekday: int -> string)
      modifies this
      ensures !isLoading && requests == old(requests)
      ensures weatherData == Settled(old(weatherData), response, weekday)
      ensures View() != Spinner
    {
      if response.Some? {
        var outcome := GetWeatherData(response.value, weekday);
        if outcome.Ok? {
          weatherData := Some(outcome.value);
        }
      }
      isLoading := false;
    }

    /** The effect on `[latitude, longitude, error]`; returns the coordinates it fetched. */
    method GeolocationChanged(g: Geolocation) returns (fetched: Option<Coordinates>)
      modifies this
      ensures fetched == ChooseCoordinates(g)
      ensures requests == old(requests) + (if fetched.Some? then [fetched.value] else [])
      ensures fetched.Some? ==> isLoading && weatherData == old(weatherData)
      ensures fetched.None? ==> isLoading == old(isLoading) && weatherData == old(weatherData)
    {
      if TruthyNumber(g.latitude) && TruthyNumber(g.longitude) {
        fetched := Some(Coordinates(g.latitude.value, g.longitude.value));
        FetchWeather(g.latitude.value, g.longitude.value);
      } else if TruthyString(g.error) {
        fetched := Some(Default);
        FetchWeather(DefaultLat, DefaultLon);
      } else {
        fetched := None;
      }
    }

    /**
     * `<SearchComponent onLocationSelect={fetchWeather} />`: picking item `i`
     * in the search box fetches the weather for that candidate.
     */
    method LocationPicked(box: Search.SearchBox, i: nat)
      requires box.Valid() && Search.ShowsList(box.State()) && i < |box.results|
      modifies this, box
      ensures box.Valid() && box.State() == Search.Step(old(box.State()), Search.Picked(i))
      ensures requests == old(requests) + [Coordinates(old(box.results[i]).lat, old(box.results[i]).lon)]
      ensures isLoading && weatherData == old(weatherData)
    {
      var lat, lon := box.Select(i);
      FetchWeather(lat, lon);
    }
  }

  /**
   * The page's first moments: the mount pass of the effect sees no position
   * and no error and fetches nothing, so the spinner stays until the
   * geolocation hook reports.
   */
  method Mount() returns (home: Home)
    ensures fresh(home) && home.requests == [] && home.View() == Spinner
  {
    home := new Home();
    var fetched := home.GeolocationChanged(Geolocation(None, None, None));
  }
}
