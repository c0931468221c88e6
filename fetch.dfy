/** get_weather_data: for each location, in order, the current-weather
    request and then the forecast request, against an HTTP oracle. A
    RequestException skips the rest of that location; any other exception
    ends the whole run. */
module Fetch {
  import opened Json

  /** A location's coordinates, as the strings interpolated into the URL. */
  datatype Location = Location(lat: string, lon: string)

  /** What `fetch_api_data(url)` does: returns the parsed body, raises a
      RequestException (a connection error, a non-2xx status, a body that is
      not JSON), or raises anything else. */
  datatype Response = Fetched(body: Json) | RequestFailed | OtherFailure

  const BaseUrl: string := "https://api.openweathermap.org/data/2.5/"

  function CurrentUrl(loc: Location, apiKey: string): string
  {
    BaseUrl + "weather?lat=" + loc.lat + "&lon=" + loc.lon + "&appid=" + apiKey + "&units=metric"
  }

  function ForecastUrl(loc: Location, apiKey: string): string
  {
    BaseUrl + "forecast?lat=" + loc.lat + "&lon=" + loc.lon + "&appid=" + apiKey + "&units=metric"
  }

  /** Both URLs share the base and the query tail, and a current-weather URL
      is never a forecast URL, whatever the coordinates and key. */
  lemma UrlShapes(a: Location, b: Location, k1: string, k2: string)
    ensures BaseUrl + "weather?lat=" <= CurrentUrl(a, k1) && BaseUrl + "forecast?lat=" <= ForecastUrl(a, k1)
    ensures CurrentUrl(a, k1)[|CurrentUrl(a, k1)| - 13..] == "&units=metric"
    ensures ForecastUrl(a, k1)[|ForecastUrl(a, k1)| - 13..] == "&units=metric"
    ensures CurrentUrl(a, k1) != ForecastUrl(b, k2)
  {
    var c, f := CurrentUrl(a, k1), ForecastUrl(b, k2);
    assert c[|BaseUrl|] == 'w';
    assert f[|BaseUrl|] == 'f';
  }

  /** The HTTP endpoint: a fixed answer per URL, and a log of the URLs asked. */
  class WeatherApi {
    const respond: string -> Response
    var requested: seq<string>

    constructor (respond: string -> Response)
      ensures this.respond == respond && requested == []
    {
      this.respond := respond;
      requested := [];
    }

    /** fetch_api_data(url). */
    method Get(url: string) returns (r: Response)
      modifies this
      ensures r == respond(url) && requested == old(requested) + [url]
    {
      r := respond(url);
      requested := requested + [url];
    }
  }

  /** `weather_data["current"]` and `weather_data["forecast"]`: location name
      to response body, in insertion order. */
  datatype WeatherData = WeatherData(current: seq<(string, Json)>, forecast: seq<(string, Json)>)

  /** One pass of the loop body on `weather_data` for the location `entry`. */
  function Visit(prev: WeatherData, entry: (string, Location), apiKey: string, respond: string -> Response): Result<WeatherData>
  {
    var (name, loc) := entry;
    match respond(CurrentUrl(loc, apiKey))
    case OtherFailure => Err(FetchFailure)
    case RequestFailed => Ok(prev)
    case Fetched(c) =>
      var current := Assign(prev.current, name, c);
      match respond(ForecastUrl(loc, apiKey))
      case OtherFailure => Err(FetchFailure)
      case RequestFailed => Ok(WeatherData(current, prev.forecast))
      case Fetched(f) => Ok(WeatherData(current, Assign(prev.forecast, name, f)))
  }

  /** What get_weather_data returns for `locs`, or FetchFailure when an
      exception other than a RequestException escapes. */
  function Gather(locs: seq<(string, Location)>, apiKey: string, respond: string -> Response): Result<WeatherData>
    decreases |locs|
  {
    if locs == [] then Ok(WeatherData([], []))
    else
      var prev :- Gather(locs[..|locs| - 1], apiKey, respond);
      Visit(prev, locs[|locs| - 1], apiKey, respond)
  }

  /** The requests issued for one location: the forecast only after the
      current weather has been fetched. */
  function LocationRequests(loc: Location, apiKey: string, respond: string -> Response): seq<string>
  {
    [CurrentUrl(loc, apiKey)] + if respond(CurrentUrl(loc, apiKey)).Fetched? then [ForecastUrl(loc, apiKey)] else []
  }

  /** All the requests get_weather_data issues, up to the one that ends the run. */
  function Requests(locs: seq<(string, Location)>, apiKey: string, respond: string -> Response): seq<string>
    decreases |locs|
  {
    if locs == [] then []
    else
      var p := locs[..|locs| - 1];
      if Gather(p, apiKey, respond).Err? then Requests(p, apiKey, respond)
      else Requests(p, apiKey, respond) + LocationRequests(locs[|locs| - 1].1, apiKey, respond)
  }

  method GetWeatherData(api: WeatherApi, locs: seq<(string, Location)>, apiKey: string) returns (r: Result<WeatherData>)
    modifies api
    ensures r == Gather(locs, apiKey, api.respond)
    ensures api.requested == old(api.requested) + Requests(locs, apiKey, api.respond)
  {
    ghost var respond := api.respond;
    ghost var before := api.requested;
    var data := WeatherData([], []);
    var i := 0;
    while i < |locs|
      invariant 0 <= i <= |locs| && api.respond == respond
      invariant Gather(locs[..i], apiKey, respond) == Ok(data)
      invariant api.requested == before + Requests(locs[..i], apiKey, respond)
    {
      var next := VisitLocation(api, data, locs[i], apiKey);
      GatherAdvance(locs, i, apiKey, respond, data, next);
      if next.Err? {
        return next;
      }
      data := next.value;
      i := i + 1;
    }
    assert locs[..i] == locs;
    return Ok(data);
  }

  /** The `try` block of the loop for one location. */
  method VisitLocation(api: WeatherApi, data: WeatherData, entry: (string, Location), apiKey: string)
    returns (r: Result<WeatherData>)
    modifies api
    ensures r == Visit(data, entry, apiKey, api.respond)
    ensures api.requested == old(api.requested) + LocationRequests(entry.1, apiKey, api.respond)
  {
    var name, loc := entry.0, entry.1;
    var c := api.Get(CurrentUrl(loc, apiKey));
    if c.OtherFailure? {
      return Err(FetchFailure);
    }
    if c.RequestFailed? {
      return Ok(data);
    }
    var current := Assign(data.current, name, c.body);
    var f := api.Get(ForecastUrl(loc, apiKey));
    if f.OtherFailure? {
      return Err(FetchFailure);
    }
    if f.RequestFailed? {
      return Ok(WeatherData(current, data.forecast));
    }
    return Ok(WeatherData(current, Assign(data.forecast, name, f.body)));
  }

  lemma GatherAdvance(locs: seq<(string, Location)>, i: nat, apiKey: string, respond: string -> Response,
                      data: WeatherData, next: Result<WeatherData>)
    requires i < |locs| && Gather(locs[..i], apiKey, respond) == Ok(data)
    requires next == Visit(data, locs[i], apiKey, respond)
    ensures next.Ok? ==> Gather(locs[..i + 1], apiKey, respond) == next
    ensures next.Err? ==> Gather(locs, apiKey, respond) == next
    ensures next.Err? ==> Requests(locs, apiKey, respond) == Requests(locs[..i], apiKey, respond) + LocationRequests(locs[i].1, apiKey, respond)
    ensures Requests(locs[..i + 1], apiKey, respond) == Requests(locs[..i], apiKey, respond) + LocationRequests(locs[i].1, apiKey, respond)
  {
    GatherStep(locs, i, apiKey, respond);
    if next.Err? {
      GatherStops(locs, i + 1, apiKey, respond);
      assert next == Err(FetchFailure);
    }
  }

  lemma GatherStep(locs: seq<(string, Location)>, i: nat, apiKey: string, respond: string -> Response)
    requires i < |locs| && Gather(locs[..i], apiKey, respond).Ok?
    ensures Gather(locs[..i + 1], apiKey, respond) == Visit(Gather(locs[..i], apiKey, respond).value, locs[i], apiKey, respond)
    ensures Requests(locs[..i + 1], apiKey, respond) == Requests(locs[..i], apiKey, respond) + LocationRequests(locs[i].1, apiKey, respond)
  {
    assert locs[..i + 1][..i] == locs[..i];
  }

  /** Once an exception escapes, no later location is visited. */
  lemma {:induction false} GatherStops(locs: seq<(string, Location)>, n: nat, apiKey: string, respond: string -> Response)
    requires n <= |locs| && Gather(locs[..n], apiKey, respond).Err?
    ensures Gather(locs, apiKey, respond) == Err(FetchFailure)
    ensures Requests(locs, apiKey, respond) == Requests(locs[..n], apiKey, respond)
    decreases |locs|
  {
    if n < |locs| {
      var p := locs[..|locs| - 1];
      assert p[..n] == locs[..n];
      GatherStops(p, n, apiKey, respond);
    } else {
      assert locs[..n] == locs;
      GatherErr(locs, apiKey, respond);
    }
  }

  lemma {:induction false} GatherErr(locs: seq<(string, Location)>, apiKey: string, respond: string -> Response)
    ensures Gather(locs, apiKey, respond).Err? ==> Gather(locs, apiKey, respond) == Err(FetchFailure)
    decreases |locs|
  {
    if locs != [] {
      GatherErr(locs[..|locs| - 1], apiKey, respond);
    }
  }

  // ---------------------------------------------------------------------
  // Failure isolation

  /** The location raises something that is not a RequestException. */
  predicate Escapes(loc: Location, apiKey: string, respond: string -> Response)
  {
    || respond(CurrentUrl(loc, apiKey)).OtherFailure?
    || (respond(CurrentUrl(loc, apiKey)).Fetched? && respond(ForecastUrl(loc, apiKey)).OtherFailure?)
  }

  /** The run completes iff no location raises anything but a RequestException. */
  lemma {:induction false} GatherOk(locs: seq<(string, Location)>, apiKey: string, respond: string -> Response)
    ensures Gather(locs, apiKey, respond).Ok? <==> forall i :: 0 <= i < |locs| ==> !Escapes(locs[i].1, apiKey, respond)
    decreases |locs|
  {
    if locs != [] {
      var p := locs[..|locs| - 1];
      GatherOk(p, apiKey, respond);
      assert forall i :: 0 <= i < |p| ==> p[i] == locs[i];
    }
  }

  /** Only the names of the locations are ever stored. */
  lemma {:induction false} GatherKeys(locs: seq<(string, Location)>, apiKey: string, respond: string -> Response)
    requires Gather(locs, apiKey, respond).Ok?
    ensures forall k :: k in Keys(Gather(locs, apiKey, respond).value.current) ==> k in Keys(locs)
    ensures forall k :: k in Keys(Gather(locs, apiKey, respond).value.forecast) ==> k in Keys(locs)
    decreases |locs|
  {
    if locs != [] {
      var p := locs[..|locs| - 1];
      var prev := Gather(p, apiKey, respond).value;
      var (name, loc) := locs[|locs| - 1];
      GatherKeys(p, apiKey, respond);
      KeysStep(locs);
      if respond(CurrentUrl(loc, apiKey)).Fetched? {
        AssignSpec(prev.current, name, respond(CurrentUrl(loc, apiKey)).body);
        if respond(ForecastUrl(loc, apiKey)).Fetched? {
          AssignSpec(prev.forecast, name, respond(ForecastUrl(loc, apiKey)).body);
        }
      }
    }
  }

  /** Each location's entries depend on its own responses only:
      `current[name]` is there iff its current request succeeded, and
      `forecast[name]` iff both of its requests did. */
  lemma {:induction false} GatherLookup(locs: seq<(string, Location)>, apiKey: string, respond: string -> Response, i: nat)
    requires DistinctKeys(locs) && Gather(locs, apiKey, respond).Ok? && i < |locs|
    ensures var (name, loc) := locs[i];
      var c := respond(CurrentUrl(loc, apiKey));
      var f := respond(ForecastUrl(loc, apiKey));
      var data := Gather(locs, apiKey, respond).value;
      && Lookup(data.current, name) == (if c.Fetched? then Some(c.body) else None)
      && Lookup(data.forecast, name) == (if c.Fetched? && f.Fetched? then Some(f.body) else None)
    decreases |locs|
  {
    var p := locs[..|locs| - 1];
    var prev := Gather(p, apiKey, respond).value;
    var (last, loc) := locs[|locs| - 1];
    var name := locs[i].0;
    var c := respond(CurrentUrl(loc, apiKey));
    var f := respond(ForecastUrl(loc, apiKey));
    if i < |p| {
      assert p[i] == locs[i];
      DistinctPrefix(locs, |locs| - 1);
      GatherLookup(p, apiKey, respond, i);
      assert name != last;
    } else {
      GatherKeys(p, apiKey, respond);
      forall j | 0 <= j < |p| ensures Keys(p)[j] != last {
        assert p[j] == locs[j];
      }
    }
    if c.Fetched? {
      AssignSpec(prev.current, last, c.body);
      if f.Fetched? {
        AssignSpec(prev.forecast, last, f.body);
      }
    }
  }

  /** The locations whose current weather was fetched, with the bodies, in order. */
  function FetchedCurrent(locs: seq<(string, Location)>, apiKey: string, respond: string -> Response): seq<(string, Json)>
    decreases |locs|
  {
    if locs == [] then []
    else
      var (name, loc) := locs[|locs| - 1];
      var c := respond(CurrentUrl(loc, apiKey));
      FetchedCurrent(locs[..|locs| - 1], apiKey, respond) + if c.Fetched? then [(name, c.body)] else []
  }

  /** The locations whose current weather and forecast were both fetched,
      with the forecast bodies, in order. */
  function FetchedForecast(locs: seq<(string, Location)>, apiKey: string, respond: string -> Response): seq<(string, Json)>
    decreases |locs|
  {
    if locs == [] then []
    else
      var (name, loc) := locs[|locs| - 1];
      var c := respond(CurrentUrl(loc, apiKey));
      var f := respond(ForecastUrl(loc, apiKey));
      FetchedForecast(locs[..|locs| - 1], apiKey, respond) + if c.Fetched? && f.Fetched? then [(name, f.body)] else []
  }

  /** With distinct names, both dicts list exactly the fetched locations in
      the order of `locs`. */
  lemma {:induction false} GatherContents(locs: seq<(string, Location)>, apiKey: string, respond: string -> Response)
    requires DistinctKeys(locs) && Gather(locs, apiKey, respond).Ok?
    ensures Gather(locs, apiKey, respond).value.current == FetchedCurrent(locs, apiKey, respond)
    ensures Gather(locs, apiKey, respond).value.forecast == FetchedForecast(locs, apiKey, respond)
    decreases |locs|
  {
    if locs != [] {
      var p := locs[..|locs| - 1];
      var prev := Gather(p, apiKey, respond).value;
      var (name, loc) := locs[|locs| - 1];
      DistinctPrefix(locs, |locs| - 1);
      GatherContents(p, apiKey, respond);
      GatherKeys(p, apiKey, respond);
      forall j | 0 <= j < |p| ensures Keys(p)[j] != name {
        assert p[j] == locs[j];
      }
      var c := respond(CurrentUrl(loc, apiKey));
      var f := respond(ForecastUrl(loc, apiKey));
      if c.Fetched? {
        AssignNew(prev.current, name, c.body);
        if f.Fetched? {
          AssignNew(prev.forecast, name, f.body);
        }
      }
    }
  }
}
