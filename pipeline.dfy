/** The body of `main`: fetch every location, transform each current and
    each forecast response in place while the tables grow row by row, then
    archive the (now mutated) responses and hand the two tables over. */
module Pipeline {
  import opened Json
  import opened Flatten
  import opened Transform
  import opened Fetch

  /** The values of a dict, in order. */
  function Values(m: seq<(string, Json)>): (vs: seq<Json>)
    ensures |vs| == |m| && forall i :: 0 <= i < |m| ==> vs[i] == m[i].1
  {
    seq(|m|, i requires 0 <= i < |m| => m[i].1)
  }

  // ---------------------------------------------------------------------
  // Growing a table with pd.concat, one response at a time

  /** The rows of the responses, appended in order; the first response that
      fails to transform stops the loop with its exception. */
  function Collect<T>(rs: seq<Result<seq<T>>>): Result<seq<T>>
    decreases |rs|
  {
    if rs == [] then Ok([])
    else
      var rows :- Collect(rs[..|rs| - 1]);
      var more :- rs[|rs| - 1];
      Ok(rows + more)
  }

  /** The number of rows the responses contribute. */
  function Total<T>(rs: seq<Result<seq<T>>>): nat
    decreases |rs|
  {
    if rs == [] then 0
    else Total(rs[..|rs| - 1]) + match rs[|rs| - 1] case Ok(more) => |more| case Err(_) => 0
  }

  lemma CollectStep<T>(rs: seq<Result<seq<T>>>)
    requires rs != []
    ensures Collect(rs).Ok? <==> Collect(rs[..|rs| - 1]).Ok? && rs[|rs| - 1].Ok?
    ensures Collect(rs).Ok? ==> Collect(rs).value == Collect(rs[..|rs| - 1]).value + rs[|rs| - 1].value
  {
  }

  /** The table exists iff every response transforms. */
  lemma {:induction false} CollectOk<T>(rs: seq<Result<seq<T>>>)
    ensures Collect(rs).Ok? <==> forall i :: 0 <= i < |rs| ==> rs[i].Ok?
    decreases |rs|
  {
    if rs != [] {
      var p := rs[..|rs| - 1];
      CollectOk(p);
      CollectStep(rs);
      assert forall i :: 0 <= i < |p| ==> p[i] == rs[i];
    }
  }

  /** The table has as many rows as the responses contribute. */
  lemma {:induction false} CollectLength<T>(rs: seq<Result<seq<T>>>)
    requires Collect(rs).Ok?
    ensures |Collect(rs).value| == Total(rs)
    decreases |rs|
  {
    if rs != [] {
      CollectStep(rs);
      CollectLength(rs[..|rs| - 1]);
    }
  }

  /** The rows of response `i` form one block of the table, after the rows
      of the responses before it. */
  lemma {:induction false} CollectBlock<T>(rs: seq<Result<seq<T>>>, i: nat)
    requires Collect(rs).Ok? && i < |rs|
    ensures rs[i].Ok?
    ensures Total(rs[..i]) + |rs[i].value| <= |Collect(rs).value|
    ensures Collect(rs).value[Total(rs[..i])..Total(rs[..i]) + |rs[i].value|] == rs[i].value
    decreases |rs|
  {
    var p := rs[..|rs| - 1];
    CollectStep(rs);
    CollectLength(p);
    var all := Collect(rs).value;
    var prev := Collect(p).value;
    if i < |p| {
      CollectBlock(p, i);
      assert rs[..i] == p[..i];
      assert p[i] == rs[i];
      var a := Total(p[..i]);
      assert all[a..a + |p[i].value|] == prev[a..a + |p[i].value|];
    } else {
      assert rs[..i] == p;
      assert all[|prev|..] == rs[i].value;
    }
  }

  /** The table holds the rows of every response in order. */
  lemma CollectContents<T>(rs: seq<Result<seq<T>>>)
    requires Collect(rs).Ok?
    ensures |Collect(rs).value| == Total(rs)
    ensures forall i :: 0 <= i < |rs| ==>
      && rs[i].Ok?
      && Total(rs[..i]) + |rs[i].value| <= Total(rs)
      && Collect(rs).value[Total(rs[..i])..Total(rs[..i]) + |rs[i].value|] == rs[i].value
  {
    CollectLength(rs);
    forall i | 0 <= i < |rs|
      ensures rs[i].Ok?
      ensures Total(rs[..i]) + |rs[i].value| <= Total(rs)
      ensures Collect(rs).value[Total(rs[..i])..Total(rs[..i]) + |rs[i].value|] == rs[i].value
    {
      CollectBlock(rs, i);
    }
  }

  /** Earlier rows are never changed by later appends. */
  lemma {:induction false} CollectPrefix<T>(rs: seq<Result<seq<T>>>, n: nat)
    requires n <= |rs| && Collect(rs).Ok?
    ensures Collect(rs[..n]).Ok? && Collect(rs[..n]).value <= Collect(rs).value
    decreases |rs|
  {
    if n < |rs| {
      var p := rs[..|rs| - 1];
      assert p[..n] == rs[..n];
      CollectStep(rs);
      CollectPrefix(p, n);
    } else {
      assert rs[..n] == rs;
    }
  }

  /** Once a response fails, the loop's exception is the outcome. */
  lemma {:induction false} CollectStops<T>(rs: seq<Result<seq<T>>>, n: nat)
    requires n <= |rs| && Collect(rs[..n]).Err?
    ensures Collect(rs) == Collect(rs[..n])
    decreases |rs|
  {
    if n < |rs| {
      var p := rs[..|rs| - 1];
      assert p[..n] == rs[..n];
      CollectStops(p, n);
    } else {
      assert rs[..n] == rs;
    }
  }

  /** One more response appended to the table. */
  lemma CollectAppend<T>(rs: seq<Result<seq<T>>>, i: nat, table: seq<T>)
    requires i < |rs| && Collect(rs[..i]) == Ok(table) && rs[i].Ok?
    ensures Collect(rs[..i + 1]) == Ok(table + rs[i].value)
  {
    assert rs[..i + 1][..i] == rs[..i];
    CollectStep(rs[..i + 1]);
  }

  /** A response that fails to transform is the loop's outcome. */
  lemma CollectFails<T>(rs: seq<Result<seq<T>>>, i: nat)
    requires i < |rs| && Collect(rs[..i]).Ok? && rs[i].Err?
    ensures Collect(rs) == Err(rs[i].error)
  {
    assert rs[..i + 1][..i] == rs[..i];
    CollectStep(rs[..i + 1]);
    CollectStops(rs, i + 1);
  }

  // ---------------------------------------------------------------------
  // The two tables

  /** A one-row frame. */
  function Single(r: Result<Row>): Result<seq<Row>>
  {
    match r
    case Ok(row) => Ok([row])
    case Err(e) => Err(e)
  }

  function CurrentResults(ds: seq<Json>): seq<Result<seq<Row>>>
  {
    seq(|ds|, i requires 0 <= i < |ds| => Single(CurrentRow(ds[i])))
  }

  function ForecastResults(ds: seq<Json>): seq<Result<seq<Row>>>
  {
    seq(|ds|, i requires 0 <= i < |ds| => ForecastRows(ds[i]))
  }

  /** `current_weather`. */
  function AllCurrentRows(ds: seq<Json>): Result<seq<Row>>
  {
    Collect(CurrentResults(ds))
  }

  /** `forecast_weather`. */
  function AllForecastRows(ds: seq<Json>): Result<seq<Row>>
  {
    Collect(ForecastResults(ds))
  }

  /** The current table exists iff every response transforms; it then has
      one row per response, and row `i` is the row of response `i`. */
  lemma AllCurrentRowsSpec(ds: seq<Json>)
    ensures AllCurrentRows(ds).Ok? <==> forall i :: 0 <= i < |ds| ==> CurrentRow(ds[i]).Ok?
    ensures AllCurrentRows(ds).Ok? ==>
      && |AllCurrentRows(ds).value| == |ds|
      && forall i :: 0 <= i < |ds| ==> AllCurrentRows(ds).value[i] == CurrentRow(ds[i]).value
  {
    var rs := CurrentResults(ds);
    CollectOk(rs);
    forall i | 0 <= i < |ds|
      ensures rs[i].Ok? == CurrentRow(ds[i]).Ok?
      ensures rs[i].Ok? ==> rs[i].value == [CurrentRow(ds[i]).value]
    {
    }
    if Collect(rs).Ok? {
      CollectSingles(rs);
    }
  }

  /** A table grown by one row per response has a row per response. */
  lemma CollectSingles<T>(rs: seq<Result<seq<T>>>)
    requires forall i :: 0 <= i < |rs| ==> rs[i].Ok? && |rs[i].value| == 1
    ensures Collect(rs).Ok? && |Collect(rs).value| == |rs|
    ensures forall i :: 0 <= i < |rs| ==> Collect(rs).value[i] == rs[i].value[0]
  {
    CollectOk(rs);
    CollectContents(rs);
    OneRowEach(rs, |rs|);
    assert rs[..|rs|] == rs;
    forall i | 0 <= i < |rs| ensures Collect(rs).value[i] == rs[i].value[0] {
      OneRowEach(rs, i);
      assert Collect(rs).value[i..i + 1] == rs[i].value;
    }
  }

  lemma {:induction false} OneRowEach<T>(rs: seq<Result<seq<T>>>, n: nat)
    requires n <= |rs|
    requires forall i :: 0 <= i < |rs| ==> rs[i].Ok? && |rs[i].value| == 1
    ensures Total(rs[..n]) == n
    decreases n
  {
    if n > 0 {
      var q := rs[..n];
      assert q[..n - 1] == rs[..n - 1];
      OneRowEach(rs, n - 1);
    }
  }

  /** The forecast table exists iff every response transforms; the rows of
      response `i` then form one block, after those of the responses before it. */
  lemma AllForecastRowsSpec(ds: seq<Json>)
    ensures AllForecastRows(ds).Ok? <==> forall i :: 0 <= i < |ds| ==> ForecastRows(ds[i]).Ok?
    ensures AllForecastRows(ds).Ok? ==> forall i :: 0 <= i < |ds| ==>
      var start := Total(ForecastResults(ds)[..i]);
      && start + |ForecastRows(ds[i]).value| <= |AllForecastRows(ds).value|
      && AllForecastRows(ds).value[start..start + |ForecastRows(ds[i]).value|] == ForecastRows(ds[i]).value
  {
    var rs := ForecastResults(ds);
    CollectOk(rs);
    forall i | 0 <= i < |ds| ensures rs[i] == ForecastRows(ds[i]) {}
    if Collect(rs).Ok? {
      CollectContents(rs);
    }
  }

  /** Rows already in the forecast table stay as they are. */
  lemma AllForecastRowsPrefix(ds: seq<Json>, n: nat)
    requires n <= |ds| && AllForecastRows(ds).Ok?
    ensures AllForecastRows(ds[..n]).Ok? && AllForecastRows(ds[..n]).value <= AllForecastRows(ds).value
  {
    var rs := ForecastResults(ds);
    CollectPrefix(rs, n);
    assert ForecastResults(ds[..n]) == rs[..n];
  }

  // ---------------------------------------------------------------------
  // The transform loops over the caller's response objects

  /** Distinct objects, one per response. */
  predicate Distinct(ps: seq<Payload>)
  {
    forall i, j :: 0 <= i < j < |ps| ==> ps[i] != ps[j]
  }

  /** One fresh object per parsed response body, holding it. */
  method ParseBodies(m: seq<(string, Json)>) returns (ps: seq<Payload>)
    ensures |ps| == |m| && Distinct(ps)
    ensures forall i :: 0 <= i < |ps| ==> fresh(ps[i]) && ps[i].value == m[i].1
  {
    ps := [];
    var i := 0;
    while i < |m|
      invariant 0 <= i <= |m| && |ps| == i && Distinct(ps)
      invariant forall j :: 0 <= j < i ==> fresh(ps[j]) && ps[j].value == m[j].1
    {
      var p := new Payload(m[i].1);
      ps := ps + [p];
      i := i + 1;
    }
  }

  /** `for location, data in weather_data['current'].items(): ...`. */
  method TransformAllCurrent(ps: seq<Payload>, ghost ds: seq<Json>) returns (r: Result<seq<Row>>)
    requires |ps| == |ds| && Distinct(ps)
    requires forall i :: 0 <= i < |ps| ==> ps[i].value == ds[i]
    modifies set i | 0 <= i < |ps| :: ps[i]
    ensures r == AllCurrentRows(ds)
    ensures r.Ok? ==> forall i :: 0 <= i < |ps| ==> ps[i].value == CurrentAfter(ds[i])
  {
    ghost var rs := CurrentResults(ds);
    var table: seq<Row> := [];
    var i := 0;
    while i < |ps|
      invariant 0 <= i <= |ps|
      invariant Collect(rs[..i]) == Ok(table)
      invariant forall j :: 0 <= j < i ==> ps[j].value == CurrentAfter(ds[j])
      invariant forall j :: i <= j < |ps| ==> ps[j].value == ds[j]
    {
      assert forall j :: 0 <= j < |ps| && j != i ==> ps[j] != ps[i];
      var row := TransformCurrent(ps[i]);
      assert rs[i] == Single(row);
      if row.Err? {
        CollectFails(rs, i);
        return Err(row.error);
      }
      CollectAppend(rs, i, table);
      table := table + [row.value];
      i := i + 1;
    }
    assert rs[..i] == rs;
    return Ok(table);
  }

  /** `for location, data in weather_data['forecast'].items(): ...`. */
  method TransformAllForecast(ps: seq<Payload>, ghost ds: seq<Json>) returns (r: Result<seq<Row>>)
    requires |ps| == |ds| && Distinct(ps)
    requires forall i :: 0 <= i < |ps| ==> ps[i].value == ds[i]
    modifies set i | 0 <= i < |ps| :: ps[i]
    ensures r == AllForecastRows(ds)
    ensures r.Ok? ==> forall i :: 0 <= i < |ps| ==> ps[i].value == ForecastAfter(ds[i])
  {
    ghost var rs := ForecastResults(ds);
    var table: seq<Row> := [];
    var i := 0;
    while i < |ps|
      invariant 0 <= i <= |ps|
      invariant Collect(rs[..i]) == Ok(table)
      invariant forall j :: 0 <= j < i ==> ps[j].value == ForecastAfter(ds[j])
      invariant forall j :: i <= j < |ps| ==> ps[j].value == ds[j]
    {
      assert forall j :: 0 <= j < |ps| && j != i ==> ps[j] != ps[i];
      var rows := TransformForecast(ps[i]);
      assert rs[i] == rows;
      if rows.Err? {
        CollectFails(rs, i);
        return Err(rows.error);
      }
      CollectAppend(rs, i, table);
      table := table + rows.value;
      i := i + 1;
    }
    assert rs[..i] == rs;
    return Ok(table);
  }

  // ---------------------------------------------------------------------
  // main

  /** What `main` hands to the storage services, and what it returns. */
  datatype Report = Report(tables: seq<(string, seq<Row>)>, archive: seq<(string, Json)>, status: string)

  /** The archive folder and dict of each response, after the transforms. */
  function Archive(folder: string, m: seq<(string, Json)>, after: seq<Json>): seq<(string, Json)>
    requires |after| == |m|
  {
    seq(|m|, i requires 0 <= i < |m| => (folder + m[i].0, after[i]))
  }

  function CurrentAfterAll(ds: seq<Json>): (r: seq<Json>)
    ensures |r| == |ds| && forall i :: 0 <= i < |ds| ==> r[i] == CurrentAfter(ds[i])
  {
    seq(|ds|, i requires 0 <= i < |ds| => CurrentAfter(ds[i]))
  }

  function ForecastAfterAll(ds: seq<Json>): (r: seq<Json>)
    ensures |r| == |ds| && forall i :: 0 <= i < |ds| ==> r[i] == ForecastAfter(ds[i])
  {
    seq(|ds|, i requires 0 <= i < |ds| => ForecastAfter(ds[i]))
  }

  /** What `main` does with the fetched responses. */
  function Process(data: WeatherData): Result<Report>
  {
    var current :- AllCurrentRows(Values(data.current));
    var forecast :- AllForecastRows(Values(data.forecast));
    Ok(Report([("current_weather", current), ("forecasted_weather", forecast)], Archived(data), "200, Success"))
  }

  /** The objects `main` uploads to the bucket: current responses first. */
  function Archived(data: WeatherData): seq<(string, Json)>
  {
    Archive("current_weather/", data.current, CurrentAfterAll(Values(data.current)))
    + Archive("forecasted_weather/", data.forecast, ForecastAfterAll(Values(data.forecast)))
  }

  /** The result of `main` for the locations `locs`. */
  function Outcome(locs: seq<(string, Location)>, apiKey: string, respond: string -> Response): Result<Report>
  {
    var data :- Gather(locs, apiKey, respond);
    Process(data)
  }

  /** `main`: the upload calls are the two fields of the report. */
  method Run(api: WeatherApi, locs: seq<(string, Location)>, apiKey: string) returns (r: Result<Report>)
    modifies api
    ensures r == Outcome(locs, apiKey, api.respond)
    ensures api.requested == old(api.requested) + Requests(locs, apiKey, api.respond)
  {
    var fetched := GetWeatherData(api, locs, apiKey);
    if fetched.Err? {
      return Err(fetched.error);
    }
    var data := fetched.value;
    var currentData := ParseBodies(data.current);
    var forecastData := ParseBodies(data.forecast);
    var current := TransformAllCurrent(currentData, Values(data.current));
    if current.Err? {
      return Err(current.error);
    }
    var forecast := TransformAllForecast(forecastData, Values(data.forecast));
    if forecast.Err? {
      return Err(forecast.error);
    }
    var archive := ArchiveAll("current_weather/", data.current, currentData, CurrentAfterAll(Values(data.current)));
    var more := ArchiveAll("forecasted_weather/", data.forecast, forecastData, ForecastAfterAll(Values(data.forecast)));
    return Ok(Report([("current_weather", current.value), ("forecasted_weather", forecast.value)],
                     archive + more, "200, Success"));
  }

  /** `for location, data in ...: upload_json_to_gcs(data, bucket, f"{folder}/{location}")`. */
  method ArchiveAll(folder: string, m: seq<(string, Json)>, ps: seq<Payload>, ghost after: seq<Json>)
    returns (archive: seq<(string, Json)>)
    requires |ps| == |m| == |after|
    requires forall i :: 0 <= i < |ps| ==> ps[i].value == after[i]
    ensures archive == Archive(folder, m, after)
  {
    archive := [];
    var i := 0;
    while i < |ps|
      invariant 0 <= i <= |ps|
      invariant archive == Archive(folder, m[..i], after[..i])
    {
      archive := archive + [(folder + m[i].0, ps[i].value)];
      i := i + 1;
    }
    assert m[..i] == m && after[..i] == after;
  }

  /** `main` fails with the HTTP call's exception when a location's
      request raises something other than a RequestException; otherwise it
      processes, for each location in order, the responses it fetched. */
  lemma OutcomeFetched(locs: seq<(string, Location)>, apiKey: string, respond: string -> Response)
    requires DistinctKeys(locs)
    ensures Outcome(locs, apiKey, respond) ==
      if forall i :: 0 <= i < |locs| ==> !Escapes(locs[i].1, apiKey, respond)
      then Process(WeatherData(FetchedCurrent(locs, apiKey, respond), FetchedForecast(locs, apiKey, respond)))
      else Err(FetchFailure)
  {
    GatherOk(locs, apiKey, respond);
    GatherErr(locs, apiKey, respond);
    if Gather(locs, apiKey, respond).Ok? {
      GatherContents(locs, apiKey, respond);
    }
  }

  /** Processing succeeds iff every fetched response transforms. */
  lemma ProcessOk(data: WeatherData)
    ensures Process(data).Ok? <==>
      && (forall i :: 0 <= i < |data.current| ==> CurrentRow(data.current[i].1).Ok?)
      && (forall i :: 0 <= i < |data.forecast| ==> ForecastRows(data.forecast[i].1).Ok?)
  {
    var vc := Values(data.current);
    var vf := Values(data.forecast);
    AllCurrentRowsSpec(vc);
    AllForecastRowsSpec(vf);
    forall i | 0 <= i < |data.current| ensures CurrentRow(vc[i]) == CurrentRow(data.current[i].1) {}
    forall i | 0 <= i < |data.forecast| ensures ForecastRows(vf[i]) == ForecastRows(data.forecast[i].1) {}
  }

  /** A successful run returns "200, Success" and hands over the two
      tables: `current_weather` with one row per fetched current response,
      `forecasted_weather` with every forecast response's rows in order. */
  lemma ProcessTables(data: WeatherData)
    requires Process(data).Ok?
    ensures var o := Process(data).value;
      && o.status == "200, Success"
      && |o.tables| == 2
      && o.tables[0].0 == "current_weather" && o.tables[1].0 == "forecasted_weather"
      && |o.tables[0].1| == |data.current|
      && (forall i :: 0 <= i < |data.current| ==>
            CurrentRow(data.current[i].1).Ok? && o.tables[0].1[i] == CurrentRow(data.current[i].1).value)
      && o.tables[1].1 == AllForecastRows(Values(data.forecast)).value
  {
    var vc := Values(data.current);
    AllCurrentRowsSpec(vc);
    forall i | 0 <= i < |data.current| ensures CurrentRow(vc[i]) == CurrentRow(data.current[i].1) {}
  }

  /** Every fetched response is archived under its location's folder,
      current ones first, each as its transform left it. */
  lemma ArchivedSpec(data: WeatherData)
    ensures var cur := data.current;
      var fc := data.forecast;
      var a := Archived(data);
      && |a| == |cur| + |fc|
      && (forall i :: 0 <= i < |cur| ==> a[i] == ("current_weather/" + cur[i].0, CurrentAfter(cur[i].1)))
      && (forall i :: 0 <= i < |fc| ==> a[|cur| + i] == ("forecasted_weather/" + fc[i].0, ForecastAfter(fc[i].1)))
  {
    var ca := Archive("current_weather/", data.current, CurrentAfterAll(Values(data.current)));
    var fa := Archive("forecasted_weather/", data.forecast, ForecastAfterAll(Values(data.forecast)));
    forall i | 0 <= i < |data.forecast|
      ensures Archived(data)[|data.current| + i] == ("forecasted_weather/" + data.forecast[i].0, ForecastAfter(data.forecast[i].1))
    {
      assert (ca + fa)[|ca| + i] == fa[i];
    }
  }

  /** The archived current response is the normalised one, not the response
      as fetched: a `weather` list has been replaced by its first element. */
  lemma ArchivedCurrentWeather(data: WeatherData, i: nat, xs: seq<Json>)
    requires i < |data.current|
    requires var d := data.current[i].1;
      d.JObj? && Lookup(d.fields, "weather") == Some(JList(xs)) && |xs| > 0
    ensures var a := Archived(data)[i].1;
      var d := data.current[i].1;
      && a.JObj? && Keys(a.fields) == Keys(d.fields)
      && Lookup(a.fields, "weather") == Some(xs[0])
      && forall k :: k != "weather" ==> Lookup(a.fields, k) == Lookup(d.fields, k)
  {
    ArchivedSpec(data);
    NormaliseCurrentList(data.current[i].1, xs);
  }

  /** The archived forecast response keeps its city, and its `list` holds
      the entries normalised up to the first failure (`weather` replaced by
      `weather[0]`) and the remaining ones as fetched. */
  lemma ArchivedForecastList(data: WeatherData, i: nat, items: seq<Json>)
    requires i < |data.forecast|
    requires var d := data.forecast[i].1;
      GetKey(d, "city").Ok? && GetKey(d, "city").value.JObj? && GetKey(d, "list") == Ok(JList(items))
    ensures var a := Archived(data)[|data.current| + i].1;
      var d := data.forecast[i].1;
      && GetKey(a, "city") == GetKey(d, "city")
      && GetKey(a, "list") == Ok(JList(AfterPrefix(items, FirstFailure(items))))
    ensures forall j :: 0 <= j < FirstFailure(items) ==> NormalisedAs(AfterPrefix(items, FirstFailure(items))[j], items[j])
    ensures forall j :: FirstFailure(items) <= j < |items| ==> AfterPrefix(items, FirstFailure(items))[j] == items[j]
  {
    ArchivedSpec(data);
    ForecastAfterLookups(data.forecast[i].1, items);
    AfterPrefixEntries(items);
  }
}
