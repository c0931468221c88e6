/** transform_current_weather_data and transform_forecasted_weather_data:
    the in-place `weather` normalisation of a response dict, the flattening
    of the result into rows, the `dt_txt` column of the current row, and the
    index-aligned join of the forecast rows with the flattened `city` block. */
module Transform {
  import opened Json
  import opened Flatten
  import opened Civil

  /** A response dict the caller owns. The transformers mutate it in place
      and the caller later archives what is left in it. */
  class Payload {
    var value: Json

    constructor (v: Json)
      ensures value == v
    {
      value := v;
    }
  }

  // ---------------------------------------------------------------------
  // Current weather

  /** The dict after `if isinstance(d['weather'], list): d['weather'] = d['weather'][0]`. */
  function NormaliseCurrent(d: Json): (r: Result<Json>)
    ensures r.Ok? ==> d.JObj? && r.value.JObj?
  {
    var w :- GetKey(d, "weather");
    if w.JList? then
      var f :- First(w);
      Ok(JObj(Assign(d.fields, "weather", f)))
    else Ok(d)
  }

  /** The dict as transform_current_weather_data leaves it: normalised when
      `d['weather']` could be evaluated, as it was otherwise. */
  function CurrentAfter(d: Json): Json
  {
    match NormaliseCurrent(d)
    case Ok(n) => n
    case Err(_) => d
  }

  /** `pd.to_datetime(dt, unit='s').strftime(...)` for one cell. */
  function DtText(v: Json): (r: Result<Json>)
    ensures r.Ok? <==> v.JInt? && 0 <= v.n <= MaxSeconds
    ensures v.JInt? && v.n > MaxSeconds ==> r == Err(OutOfBoundsDatetime)
  {
    if !v.JInt? || v.n < 0 then Err(Unmodelled)
    else if v.n > MaxSeconds then Err(OutOfBoundsDatetime)
    else Ok(JStr(EpochText(v.n)))
  }

  /** The row after `if 'dt' in data_df.columns: data_df['dt_txt'] = ...`. */
  function WithDtText(row: Row): Result<Row>
  {
    match Lookup(row, "dt")
    case None => Ok(row)
    case Some(v) =>
      var t :- DtText(v);
      Ok(Assign(row, "dt_txt", t))
  }

  /** The single row transform_current_weather_data returns for the dict `d`. */
  function CurrentRow(d: Json): Result<Row>
  {
    var n :- NormaliseCurrent(d);
    WithDtText(Build(Writes(n.fields)))
  }

  /** transform_current_weather_data: normalises `p` in place, flattens it
      and adds `dt_txt`. The mutation survives a later failure. */
  method TransformCurrent(p: Payload) returns (r: Result<Row>)
    modifies p
    ensures r == CurrentRow(old(p.value))
    ensures p.value == CurrentAfter(old(p.value))
  {
    var d := p.value;
    var w := GetKey(d, "weather");
    if w.Err? {
      return Err(w.error);
    }
    if w.value.JList? {
      var f := First(w.value);
      if f.Err? {
        return Err(f.error);
      }
      p.value := JObj(Assign(d.fields, "weather", f.value));
    }
    var row := FlattenDict(p.value.fields);
    var dt := Lookup(row, "dt");
    if dt.Some? {
      var t := DtText(dt.value);
      if t.Err? {
        return Err(t.error);
      }
      row := Assign(row, "dt_txt", t.value);
    }
    return Ok(row);
  }

  /** A `weather` list is replaced by its first element, in the same
      position, and no other key changes. */
  lemma NormaliseCurrentList(d: Json, xs: seq<Json>)
    requires d.JObj? && Lookup(d.fields, "weather") == Some(JList(xs)) && |xs| > 0
    ensures NormaliseCurrent(d).Ok? && NormaliseCurrent(d).value.JObj?
    ensures Keys(NormaliseCurrent(d).value.fields) == Keys(d.fields)
    ensures Lookup(NormaliseCurrent(d).value.fields, "weather") == Some(xs[0])
    ensures forall k :: k != "weather" ==> Lookup(NormaliseCurrent(d).value.fields, k) == Lookup(d.fields, k)
  {
    AssignSpec(d.fields, "weather", xs[0]);
  }

  /** Any other `weather` value leaves the dict as it is; a missing key is a
      KeyError and an empty list an IndexError. */
  lemma NormaliseCurrentOther(d: Json)
    requires d.JObj?
    ensures Lookup(d.fields, "weather").None? ==> NormaliseCurrent(d) == Err(KeyError(JStr("weather")))
    ensures Lookup(d.fields, "weather") == Some(JList([])) ==> NormaliseCurrent(d) == Err(IndexError)
    ensures Lookup(d.fields, "weather").Some? && !Lookup(d.fields, "weather").value.JList? ==>
      NormaliseCurrent(d) == Ok(d)
  {
  }

  /** Normalising again changes nothing once `weather` is no longer a list,
      so transforming the mutated dict gives the same row. */
  lemma CurrentIdempotent(d: Json)
    requires NormaliseCurrent(d).Ok?
    requires GetKey(NormaliseCurrent(d).value, "weather").Ok? ==>
      !GetKey(NormaliseCurrent(d).value, "weather").value.JList?
    ensures NormaliseCurrent(NormaliseCurrent(d).value) == NormaliseCurrent(d)
    ensures CurrentRow(NormaliseCurrent(d).value) == CurrentRow(d)
  {
    var n := NormaliseCurrent(d).value;
    var w := GetKey(d, "weather").value;
    if w.JList? {
      AssignSpec(d.fields, "weather", First(w).value);
    }
  }

  /** When `weather[0]` is itself a list the second transform unwraps it again:
      `{"weather": [[1]]}` becomes `{"weather": [1]}`, then `{"weather": 1}`. */
  lemma CurrentTwiceExample()
    ensures NormaliseCurrent(JObj([("weather", JList([JList([JInt(1)])]))]))
         == Ok(JObj([("weather", JList([JInt(1)]))]))
    ensures NormaliseCurrent(JObj([("weather", JList([JInt(1)]))])) == Ok(JObj([("weather", JInt(1))]))
  {
    var fs: seq<(string, Json)> := [("weather", JList([JList([JInt(1)])]))];
    assert Keys(fs) == ["weather"];
    assert fs[0 := ("weather", JList([JInt(1)]))] == [("weather", JList([JInt(1)]))];
    var gs: seq<(string, Json)> := [("weather", JList([JInt(1)]))];
    assert Keys(gs) == ["weather"];
    assert gs[0 := ("weather", JInt(1))] == [("weather", JInt(1))];
  }

  /** `dt_txt` is added exactly when the flattened row has a `dt` column: it
      then holds the text that reads back as `dt`, the `dt` cell is kept and
      nothing else changes; without `dt` the row is the flattened dict. */
  lemma {:induction false} CurrentRowDt(d: Json)
    requires CurrentRow(d).Ok?
    ensures NormaliseCurrent(d).Ok? && NormaliseCurrent(d).value.JObj?
    ensures var flat := Build(Writes(NormaliseCurrent(d).value.fields));
      var row := CurrentRow(d).value;
      && ("dt" !in Keys(flat) ==> row == flat)
      && ("dt" in Keys(flat) ==>
            && "dt_txt" in Keys(row)
            && Lookup(row, "dt") == Lookup(flat, "dt")
            && Lookup(flat, "dt").value.JInt?
            && 0 <= Lookup(flat, "dt").value.n <= MaxSeconds
            && Lookup(row, "dt_txt") == Some(JStr(EpochText(Lookup(flat, "dt").value.n)))
            && (forall k :: k != "dt_txt" ==> Lookup(row, k) == Lookup(flat, k)))
  {
    var flat := Build(Writes(NormaliseCurrent(d).value.fields));
    var dt := Lookup(flat, "dt");
    if dt.Some? {
      AssignSpec(flat, "dt_txt", DtText(dt.value).value);
    }
  }

  /** The `dt_txt` of a current row names the very second of its `dt`. */
  lemma CurrentRowDtText(d: Json)
    requires CurrentRow(d).Ok? && NormaliseCurrent(d).Ok?
    requires "dt" in Keys(Build(Writes(NormaliseCurrent(d).value.fields)))
    ensures var row := CurrentRow(d).value;
      && Lookup(row, "dt").Some? && Lookup(row, "dt").value.JInt?
      && Lookup(row, "dt_txt").Some? && Lookup(row, "dt_txt").value.JStr?
      && |Lookup(row, "dt_txt").value.s| == 19
      && ValidDateTime(ParseDateTime(Lookup(row, "dt_txt").value.s))
      && ToEpoch(ParseDateTime(Lookup(row, "dt_txt").value.s)) == Lookup(row, "dt").value.n
  {
    CurrentRowDt(d);
    var flat := Build(Writes(NormaliseCurrent(d).value.fields));
    EpochTextSpec(Lookup(flat, "dt").value.n);
  }

  // ---------------------------------------------------------------------
  // Forecast

  /** `item['weather'] = item['weather'][0]` on one list entry, unconditionally. */
  function NormaliseEntry(item: Json): Result<Json>
  {
    var w :- GetKey(item, "weather");
    var f :- First(w);
    Ok(JObj(Assign(item.fields, "weather", f)))
  }

  /** An entry that normalises takes its new value; one that fails is left as it is. */
  function Normalised(item: Json): Json
  {
    match NormaliseEntry(item)
    case Ok(v) => v
    case Err(_) => item
  }

  /** `e` is `item` after `item['weather'] = item['weather'][0]`: the same
      keys, `weather[0]` under `weather`, and every other key as it was. */
  ghost predicate NormalisedAs(e: Json, item: Json)
  {
    && item.JObj? && GetKey(item, "weather").Ok? && First(GetKey(item, "weather").value).Ok?
    && e.JObj? && Keys(e.fields) == Keys(item.fields)
    && Lookup(e.fields, "weather") == Some(First(GetKey(item, "weather").value).value)
    && (forall key :: key != "weather" ==> Lookup(e.fields, key) == Lookup(item.fields, key))
  }

  /** The flattened rows of the list entries, one per entry in order, or the
      error of the first entry that fails. */
  function EntryRows(items: seq<Json>): Result<seq<Row>>
    decreases |items|
  {
    if items == [] then Ok([])
    else
      var rows :- EntryRows(items[..|items| - 1]);
      var e :- NormaliseEntry(items[|items| - 1]);
      Ok(rows + [Build(Writes(e.fields))])
  }

  /** How many entries normalise before the first one that fails. */
  function FirstFailure(items: seq<Json>): (k: nat)
    ensures k <= |items|
    ensures forall i :: 0 <= i < k ==> NormaliseEntry(items[i]).Ok?
    ensures k < |items| ==> NormaliseEntry(items[k]).Err?
    decreases |items|
  {
    if items == [] || NormaliseEntry(items[0]).Err? then 0
    else 1 + FirstFailure(items[1..])
  }

  /** The list after the loop has normalised its first `k` entries in place. */
  function AfterPrefix(items: seq<Json>, k: nat): seq<Json>
  {
    seq(|items|, i requires 0 <= i < |items| => if i < k then Normalised(items[i]) else items[i])
  }

  /** `pd.concat([forecast_df, city_df], axis=1)`: aligned by row index, the
      city columns join row 0 only, after the entry's own columns and without
      overwriting any of them; with no entries the city row stands alone. */
  function JoinCity(rows: seq<Row>, city: Row): seq<Row>
  {
    if rows == [] then [city] else [rows[0] + city] + rows[1..]
  }

  /** The rows transform_forecasted_weather_data returns for the dict `d`. */
  function ForecastRows(d: Json): Result<seq<Row>>
  {
    var city :- GetKey(d, "city");
    if !city.JObj? then Err(AttributeError)
    else
      var list :- GetKey(d, "list");
      var items :- Iterate(list);
      var rows :- EntryRows(items);
      Ok(JoinCity(rows, Build(Writes(city.fields))))
  }

  /** The dict after transform_forecasted_weather_data: when the loop runs
      over a list, its entries up to the first failure are normalised. */
  function ForecastAfter(d: Json): Json
  {
    match GetKey(d, "city")
    case Ok(city) =>
      if city.JObj? && GetKey(d, "list").Ok? && GetKey(d, "list").value.JList? then
        var items := GetKey(d, "list").value.items;
        JObj(Assign(d.fields, "list", JList(AfterPrefix(items, FirstFailure(items)))))
      else d
    case Err(_) => d
  }

  /** The entry rows exist iff no entry fails, and otherwise the error is the
      first failing entry's. */
  lemma {:induction false} EntryRowsFailure(items: seq<Json>)
    ensures EntryRows(items).Ok? <==> FirstFailure(items) == |items|
    ensures EntryRows(items).Err? ==> EntryRows(items).error == NormaliseEntry(items[FirstFailure(items)]).error
    decreases |items|
  {
    if items != [] {
      var p := items[..|items| - 1];
      var last := items[|items| - 1];
      EntryRowsFailure(p);
      FirstFailurePrefix(items);
      EntryRowsSplit(items);
      CountSucceeds(EntryRows(items).Ok?, EntryRows(p).Ok?, NormaliseEntry(last).Ok?,
                    FirstFailure(p), FirstFailure(items), |p|);
      if EntryRows(p).Err? {
        assert p[FirstFailure(p)] == items[FirstFailure(p)];
      }
    }
  }

  /** The step of EntryRowsFailure on counts: the whole succeeds iff the
      prefix and the last entry do, so iff the count reaches past the prefix. */
  lemma CountSucceeds(ok: bool, okPrefix: bool, okLast: bool, kPrefix: int, k: int, n: int)
    requires ok <==> okPrefix && okLast
    requires okPrefix <==> kPrefix == n
    requires 0 <= kPrefix <= n
    requires kPrefix < n ==> k == kPrefix
    requires kPrefix == n ==> k == n + (if okLast then 1 else 0)
    ensures ok <==> k == n + 1
  {
  }

  /** Dropping the last entry moves the first failure only if it was the last. */
  lemma FirstFailurePrefix(items: seq<Json>)
    requires items != []
    ensures var p := items[..|items| - 1];
      if FirstFailure(p) < |p| then FirstFailure(items) == FirstFailure(p)
      else FirstFailure(items) == |p| + (if NormaliseEntry(items[|p|]).Ok? then 1 else 0)
  {
    var p := items[..|items| - 1];
    var k := FirstFailure(p);
    assert forall i :: 0 <= i < |p| ==> p[i] == items[i];
    FirstFailureUnique(items, if k < |p| || NormaliseEntry(items[|p|]).Err? then k else |items|);
  }

  /** FirstFailure is the only count with its defining properties. */
  lemma {:induction false} FirstFailureUnique(items: seq<Json>, k: nat)
    requires k <= |items|
    requires forall i :: 0 <= i < k ==> NormaliseEntry(items[i]).Ok?
    requires k < |items| ==> NormaliseEntry(items[k]).Err?
    ensures FirstFailure(items) == k
    decreases |items|
  {
    if k > 0 {
      assert NormaliseEntry(items[0]).Ok?;
      forall i | 0 <= i < k - 1 ensures NormaliseEntry(items[1..][i]).Ok? {
        assert items[1..][i] == items[i + 1];
      }
      FirstFailureUnique(items[1..], k - 1);
    }
  }

  /** One more entry that normalises adds its row. */
  lemma EntryRowsAppend(items: seq<Json>, i: nat, rows: seq<Row>, e: Json)
    requires i < |items| && EntryRows(items[..i]) == Ok(rows) && NormaliseEntry(items[i]) == Ok(e)
    ensures e.JObj? && EntryRows(items[..i + 1]) == Ok(rows + [Build(Writes(e.fields))])
  {
    assert items[..i + 1][..i] == items[..i];
  }

  /** The loop body's two subscripts compute NormaliseEntry. */
  lemma EntryOutcome(item: Json, w: Result<Json>, f: Result<Json>)
    requires w == GetKey(item, "weather") && f == (if w.Ok? then First(w.value) else Err(w.error))
    ensures f.Err? ==> NormaliseEntry(item) == Err(f.error)
    ensures f.Ok? ==> item.JObj? && NormaliseEntry(item) == Ok(JObj(Assign(item.fields, "weather", f.value)))
  {
  }

  /** One more entry normalised and flattened: its row joins the rows so far. */
  lemma EntryAdvance(items: seq<Json>, i: nat, rows: seq<Row>, e: Json, row: Row)
    requires i < |items| && EntryRows(items[..i]) == Ok(rows) && NormaliseEntry(items[i]) == Ok(e)
    requires e.JObj? && row == Build(Writes(e.fields))
    ensures EntryRows(items[..i + 1]) == Ok(rows + [row])
  {
    EntryRowsAppend(items, i, rows, e);
  }

  /** The first entry that fails after a run of successes ends the loop with its error. */
  lemma EntryFailsAfter(items: seq<Json>, i: nat, rows: seq<Row>)
    requires i < |items| && EntryRows(items[..i]) == Ok(rows) && NormaliseEntry(items[i]).Err?
    ensures FirstFailure(items) == i
    ensures EntryRows(items) == Err(NormaliseEntry(items[i]).error)
  {
    var p := items[..i];
    EntryRowsFailure(p);
    forall j | 0 <= j < i ensures NormaliseEntry(items[j]).Ok? {
      assert p[j] == items[j];
    }
    EntryFails(items, i);
  }

  /** Normalising entry `i` in place extends the normalised prefix by one. */
  lemma AfterPrefixStep(items: seq<Json>, i: nat, e: Json)
    requires i < |items| && NormaliseEntry(items[i]) == Ok(e)
    ensures AfterPrefix(items, i)[i := e] == AfterPrefix(items, i + 1)
  {
  }

  /** The loop stops at entry `i` when it is the first to fail. */
  lemma EntryFails(items: seq<Json>, i: nat)
    requires i < |items| && NormaliseEntry(items[i]).Err?
    requires forall j :: 0 <= j < i ==> NormaliseEntry(items[j]).Ok?
    ensures FirstFailure(items) == i
    ensures EntryRows(items) == Err(NormaliseEntry(items[i]).error)
  {
    FirstFailureUnique(items, i);
    EntryRowsFailure(items);
  }

  /** The rows of the entries are in order: row `i` is entry `i` normalised
      and flattened. */
  lemma EntryRowsContents(items: seq<Json>)
    requires EntryRows(items).Ok?
    ensures |EntryRows(items).value| == |items|
    ensures forall i :: 0 <= i < |items| ==>
      NormaliseEntry(items[i]).Ok? && NormaliseEntry(items[i]).value.JObj?
      && EntryRows(items).value[i] == Build(Writes(NormaliseEntry(items[i]).value.fields))
  {
    EntryRowsLength(items);
    forall i | 0 <= i < |items|
      ensures NormaliseEntry(items[i]).Ok? && NormaliseEntry(items[i]).value.JObj?
      ensures EntryRows(items).value[i] == Build(Writes(NormaliseEntry(items[i]).value.fields))
    {
      EntryRowAt(items, i);
    }
  }

  lemma {:induction false} EntryRowsLength(items: seq<Json>)
    requires EntryRows(items).Ok?
    ensures |EntryRows(items).value| == |items|
    decreases |items|
  {
    if items != [] {
      EntryRowsLength(items[..|items| - 1]);
    }
  }

  lemma {:induction false} EntryRowAt(items: seq<Json>, i: nat)
    requires EntryRows(items).Ok? && i < |items|
    ensures NormaliseEntry(items[i]).Ok? && NormaliseEntry(items[i]).value.JObj?
    ensures i < |EntryRows(items).value|
    ensures EntryRows(items).value[i] == Build(Writes(NormaliseEntry(items[i]).value.fields))
    decreases |items|
  {
    var p := items[..|items| - 1];
    if i < |p| {
      EntryRowEarlier(items, i);
      EntryRowAt(p, i);
    } else {
      EntryRowsSplit(items);
      EntryRowsLength(p);
      AppendedAt(EntryRows(items).value, EntryRows(p).value, Build(Writes(NormaliseEntry(items[i]).value.fields)), i);
    }
  }

  /** A row before the last one is the row of the entries without the last. */
  lemma EntryRowEarlier(items: seq<Json>, i: nat)
    requires EntryRows(items).Ok? && i < |items| - 1
    ensures EntryRows(items[..|items| - 1]).Ok?
    ensures i < |EntryRows(items[..|items| - 1]).value| && i < |EntryRows(items).value|
    ensures items[..|items| - 1][i] == items[i]
    ensures EntryRows(items).value[i] == EntryRows(items[..|items| - 1]).value[i]
  {
    var p := items[..|items| - 1];
    EntryRowsGrow(items);
    EntryRowsLength(p);
    var all := EntryRows(items).value;
    assert all[..|all| - 1][i] == all[i];
  }

  /** Dropping the last entry drops the last row. */
  lemma EntryRowsGrow(items: seq<Json>)
    requires EntryRows(items).Ok? && items != []
    ensures EntryRows(items[..|items| - 1]).Ok? && |EntryRows(items).value| > 0
    ensures EntryRows(items[..|items| - 1]).value == EntryRows(items).value[..|EntryRows(items).value| - 1]
  {
    EntryRowsSplit(items);
    var all := EntryRows(items).value;
    assert all[..|all| - 1] == EntryRows(items[..|items| - 1]).value;
  }

  lemma AppendedAt<T>(all: seq<T>, rows: seq<T>, x: T, i: nat)
    requires all == rows + [x] && i <= |rows|
    ensures i < |all|
    ensures i < |rows| ==> all[i] == rows[i]
    ensures i == |rows| ==> all[i] == x
  {
  }

  /** The rows of all entries are the rows of all but the last, then the last entry's row. */
  lemma EntryRowsSplit(items: seq<Json>)
    requires items != []
    ensures EntryRows(items).Ok? <==>
      EntryRows(items[..|items| - 1]).Ok? && NormaliseEntry(items[|items| - 1]).Ok?
    ensures NormaliseEntry(items[|items| - 1]).Ok? ==> NormaliseEntry(items[|items| - 1]).value.JObj?
    ensures EntryRows(items).Ok? ==>
      EntryRows(items).value
        == EntryRows(items[..|items| - 1]).value + [Build(Writes(NormaliseEntry(items[|items| - 1]).value.fields))]
    ensures EntryRows(items).Err? ==>
      EntryRows(items).error
        == if EntryRows(items[..|items| - 1]).Err? then EntryRows(items[..|items| - 1]).error
           else NormaliseEntry(items[|items| - 1]).error
  {
  }

  /** transform_forecasted_weather_data: flattens `city`, then normalises
      and flattens the entries of `list` (see FlattenEntries) and joins the two. */
  method TransformForecast(p: Payload) returns (r: Result<seq<Row>>)
    modifies p
    ensures r == ForecastRows(old(p.value))
    ensures p.value == ForecastAfter(old(p.value))
  {
    var d := p.value;
    var c := GetKey(d, "city");
    if c.Err? {
      return Err(c.error);
    }
    if !c.value.JObj? {
      return Err(AttributeError);
    }
    var cityRow := FlattenDict(c.value.fields);
    var l := GetKey(d, "list");
    if l.Err? {
      return Err(l.error);
    }
    var it := Iterate(l.value);
    if it.Err? {
      return Err(it.error);
    }
    var slot := IndexOf(d.fields, "list");
    var rows := FlattenEntries(p, slot, it.value, l.value.JList?);
    ForecastAfterAt(d, c.value, l.value, it.value);
    if rows.Err? {
      return Err(rows.error);
    }
    return Ok(JoinCity(rows.value, cityRow));
  }

  /** The loop `for item in list: item['weather'] = item['weather'][0]; ...`
      over the entries `items`, which sit at position `slot` of the dict in
      `p` when `inPlace` holds (when `list` is a dict or a string the loop
      visits fresh keys or characters, and the first one fails). Each entry
      is rewritten in place before it is flattened, and the rows are
      appended in order; the loop stops at the first entry that fails. */
  method FlattenEntries(p: Payload, slot: nat, items: seq<Json>, inPlace: bool) returns (r: Result<seq<Row>>)
    modifies p
    requires p.value.JObj? && slot < |p.value.fields|
    requires inPlace ==> p.value.fields[slot].1 == JList(items)
    ensures r == EntryRows(items)
    ensures inPlace ==> p.value == JObj(old(p.value).fields[slot := (old(p.value).fields[slot].0,
      JList(AfterPrefix(items, FirstFailure(items))))])
    ensures !inPlace ==> p.value == old(p.value)
  {
    var d := p.value;
    var key := d.fields[slot].0;
    var current := items;
    var rows: seq<Row> := [];
    var i := 0;
    assert AfterPrefix(items, 0) == items;
    if inPlace {
      UpdateSame(d.fields, slot);
    }
    while i < |items|
      invariant 0 <= i <= |items|
      invariant EntryRows(items[..i]) == Ok(rows)
      invariant current == AfterPrefix(items, i)
      invariant inPlace ==> p.value == JObj(d.fields[slot := (key, JList(current))])
      invariant !inPlace ==> p.value == d
    {
      var n := NormaliseRow(items[i]);
      if n.Err? {
        EntryFailsAfter(items, i, rows);
        return Err(n.error);
      }
      var e := n.value.0;
      var row := n.value.1;
      EntryAdvance(items, i, rows, e, row);
      AfterPrefixStep(items, i, e);
      current := current[i := e];
      if inPlace {
        p.value := JObj(d.fields[slot := (key, JList(current))]);
      }
      rows := rows + [row];
      i := i + 1;
    }
    assert items[..i] == items;
    EntryRowsFailure(items);
    return Ok(rows);
  }

  /** The loop body on one entry: `item['weather'] = item['weather'][0]`,
      then `flatten_dict(item)`. Gives the rewritten entry and its row, or the
      error of the failing subscript. */
  method NormaliseRow(item: Json) returns (r: Result<(Json, Row)>)
    ensures r.Ok? <==> NormaliseEntry(item).Ok?
    ensures r.Err? ==> r.error == NormaliseEntry(item).error
    ensures r.Ok? ==> r.value.0 == NormaliseEntry(item).value && r.value.0.JObj?
    ensures r.Ok? ==> r.value.1 == Build(Writes(r.value.0.fields))
  {
    var w := GetKey(item, "weather");
    var f := if w.Ok? then First(w.value) else Err(w.error);
    EntryOutcome(item, w, f);
    if f.Err? {
      return Err(f.error);
    }
    var e := JObj(Assign(item.fields, "weather", f.value));
    var row := FlattenDict(e.fields);
    return Ok((e, row));
  }

  /** Writing an element back to its own position changes nothing. */
  lemma UpdateSame<T>(s: seq<T>, i: nat)
    requires i < |s|
    ensures s[i := s[i]] == s
  {
  }

  /** The dict the loop leaves behind. */
  lemma ForecastAfterAt(d: Json, city: Json, list: Json, items: seq<Json>)
    requires GetKey(d, "city") == Ok(city) && city.JObj? && GetKey(d, "list") == Ok(list)
    requires Iterate(list) == Ok(items)
    ensures list.JList? ==> ForecastAfter(d) == JObj(d.fields[IndexOf(d.fields, "list") :=
      ("list", JList(AfterPrefix(items, FirstFailure(items))))])
    ensures !list.JList? ==> ForecastAfter(d) == d
  {
  }

  // ---------------------------------------------------------------------
  // What the forecast transformer promises

  /** The dict lookups fail with the key that is missing, and a `city`
      that is not a dict has no `.items()`. */
  lemma ForecastErrors(d: Json)
    requires d.JObj?
    ensures "city" !in Keys(d.fields) ==> ForecastRows(d) == Err(KeyError(JStr("city")))
    ensures "city" in Keys(d.fields) && !GetKey(d, "city").value.JObj? ==> ForecastRows(d) == Err(AttributeError)
    ensures "city" in Keys(d.fields) && GetKey(d, "city").value.JObj? && "list" !in Keys(d.fields) ==>
      ForecastRows(d) == Err(KeyError(JStr("list")))
  {
  }

  /** There are max(|list|, 1) rows. Row `i` is entry `i` normalised and
      flattened; the flattened city follows the entry's columns in row 0
      only, and with no entries it is the only row. */
  lemma ForecastRowsShape(d: Json)
    requires ForecastRows(d).Ok?
    ensures GetKey(d, "city").Ok? && GetKey(d, "city").value.JObj?
    ensures GetKey(d, "list").Ok? && Iterate(GetKey(d, "list").value).Ok?
    ensures var items := Iterate(GetKey(d, "list").value).value;
      var city := Build(Writes(GetKey(d, "city").value.fields));
      var rows := ForecastRows(d).value;
      && |rows| == (if |items| == 0 then 1 else |items|)
      && (|items| == 0 ==> rows == [city])
      && (forall i :: 0 <= i < |items| ==> NormaliseEntry(items[i]).Ok? && NormaliseEntry(items[i]).value.JObj?)
      && (|items| > 0 ==> rows[0] == Build(Writes(NormaliseEntry(items[0]).value.fields)) + city)
      && (forall i :: 1 <= i < |items| ==> rows[i] == Build(Writes(NormaliseEntry(items[i]).value.fields)))
  {
    var items := Iterate(GetKey(d, "list").value).value;
    var city := Build(Writes(GetKey(d, "city").value.fields));
    ForecastRowsJoin(d);
    EntryRowsContents(items);
    JoinCityShape(EntryRows(items).value, city);
  }

  /** The rows are the entries' rows with the city joined on. */
  lemma ForecastRowsJoin(d: Json)
    requires ForecastRows(d).Ok?
    ensures GetKey(d, "city").Ok? && GetKey(d, "city").value.JObj?
    ensures GetKey(d, "list").Ok? && Iterate(GetKey(d, "list").value).Ok?
    ensures EntryRows(Iterate(GetKey(d, "list").value).value).Ok?
    ensures ForecastRows(d).value
         == JoinCity(EntryRows(Iterate(GetKey(d, "list").value).value).value,
                     Build(Writes(GetKey(d, "city").value.fields)))
  {
  }

  /** pd.concat(axis=1) of the entries' frame and the one-row city frame. */
  lemma JoinCityShape(rows: seq<Row>, city: Row)
    ensures |JoinCity(rows, city)| == if |rows| == 0 then 1 else |rows|
    ensures |rows| == 0 ==> JoinCity(rows, city) == [city]
    ensures |rows| > 0 ==> JoinCity(rows, city)[0] == rows[0] + city
    ensures forall i :: 1 <= i < |rows| ==> JoinCity(rows, city)[i] == rows[i]
  {
  }

  /** Rows after the first carry no city column that their own entry lacks. */
  lemma CityOnlyOnRowZero(d: Json, i: nat, c: string)
    requires ForecastRows(d).Ok?
    requires GetKey(d, "list").Ok? && Iterate(GetKey(d, "list").value).Ok?
    requires 1 <= i < |Iterate(GetKey(d, "list").value).value|
    requires NormaliseEntry(Iterate(GetKey(d, "list").value).value[i]).Ok?
    requires NormaliseEntry(Iterate(GetKey(d, "list").value).value[i]).value.JObj?
    requires c !in Keys(Writes(NormaliseEntry(Iterate(GetKey(d, "list").value).value[i]).value.fields))
    ensures i < |ForecastRows(d).value| && c !in Keys(ForecastRows(d).value[i])
  {
    var items := Iterate(GetKey(d, "list").value).value;
    ForecastRowsShape(d);
    BuildColumns(Writes(NormaliseEntry(items[i]).value.fields));
  }

  /** A column the first entry and the city share appears twice in row 0:
      the entry's cell first, the city's cell after it, neither overwritten. */
  lemma SharedColumnDuplicated(d: Json, c: string)
    requires ForecastRows(d).Ok?
    requires GetKey(d, "list").Ok? && Iterate(GetKey(d, "list").value).Ok?
    requires |Iterate(GetKey(d, "list").value).value| > 0
    requires NormaliseEntry(Iterate(GetKey(d, "list").value).value[0]).Ok?
    requires NormaliseEntry(Iterate(GetKey(d, "list").value).value[0]).value.JObj?
    requires GetKey(d, "city").Ok? && GetKey(d, "city").value.JObj?
    requires c in Keys(Build(Writes(NormaliseEntry(Iterate(GetKey(d, "list").value).value[0]).value.fields)))
    requires c in Keys(Build(Writes(GetKey(d, "city").value.fields)))
    ensures var e := Build(Writes(NormaliseEntry(Iterate(GetKey(d, "list").value).value[0]).value.fields));
      var city := Build(Writes(GetKey(d, "city").value.fields));
      var row := ForecastRows(d).value[0];
      && |row| == |e| + |city|
      && row[IndexOf(e, c)] == (c, Lookup(e, c).value)
      && row[|e| + IndexOf(city, c)] == (c, Lookup(city, c).value)
  {
    ForecastRowsShape(d);
  }

  /** The dict the forecast transformer leaves: only `list` changes, in its
      place; entries before the first failure have `weather[0]` in place of
      `weather` and keep their keys, later entries are untouched. */
  lemma ForecastAfterEffect(d: Json)
    requires GetKey(d, "city").Ok? && GetKey(d, "city").value.JObj?
    requires GetKey(d, "list").Ok? && GetKey(d, "list").value.JList?
    ensures var items := GetKey(d, "list").value.items;
      var a := ForecastAfter(d);
      var k := FirstFailure(items);
      && a.JObj? && Keys(a.fields) == Keys(d.fields)
      && (forall key :: key != "list" ==> Lookup(a.fields, key) == Lookup(d.fields, key))
      && Lookup(a.fields, "list") == Some(JList(AfterPrefix(items, k)))
      && (forall i :: 0 <= i < k ==> NormalisedAs(AfterPrefix(items, k)[i], items[i]))
      && (forall i :: k <= i < |items| ==> AfterPrefix(items, k)[i] == items[i])
  {
    var items := GetKey(d, "list").value.items;
    AssignSpec(d.fields, "list", JList(AfterPrefix(items, FirstFailure(items))));
    AfterPrefixEntries(items);
  }

  /** Every entry the loop got through is its original with `weather`
      replaced by `weather[0]`, and nothing else changed. */
  lemma AfterPrefixEntries(items: seq<Json>)
    ensures forall i :: 0 <= i < FirstFailure(items) ==>
      NormalisedAs(AfterPrefix(items, FirstFailure(items))[i], items[i])
  {
    var k := FirstFailure(items);
    forall i | 0 <= i < k
      ensures NormalisedAs(AfterPrefix(items, k)[i], items[i])
    {
      AssignSpec(items[i].fields, "weather", First(GetKey(items[i], "weather").value).value);
    }
  }

  /** The transform is not idempotent: once the first entry's `weather[0]`
      (a dict in the API's responses) has replaced its `weather`, running
      the transform again on the mutated dict fails with `KeyError: 0`. */
  lemma ForecastNotIdempotent(d: Json, items: seq<Json>, w: Json)
    requires ForecastRows(d).Ok? && GetKey(d, "list") == Ok(JList(items)) && |items| > 0
    requires GetKey(items[0], "weather").Ok? && First(GetKey(items[0], "weather").value) == Ok(w) && w.JObj?
    ensures ForecastRows(ForecastAfter(d)) == Err(KeyError(JInt(0)))
  {
    EntryRowsFailure(items);
    var after := AfterPrefix(items, FirstFailure(items));
    ForecastAfterLookups(d, items);
    SecondEntryFails(items, 0, w);
    EntryFails(after, 0);
    ForecastRowsEntryError(ForecastAfter(d), GetKey(d, "city").value, after);
  }

  /** With a dict `city` and a list `list`, the forecast fails exactly as its entries do. */
  lemma ForecastRowsEntryError(d: Json, city: Json, items: seq<Json>)
    requires GetKey(d, "city") == Ok(city) && city.JObj?
    requires GetKey(d, "list") == Ok(JList(items)) && EntryRows(items).Err?
    ensures ForecastRows(d) == Err(EntryRows(items).error)
  {
    assert Iterate(JList(items)) == Ok(items);
  }

  lemma ForecastAfterLookups(d: Json, items: seq<Json>)
    requires GetKey(d, "city").Ok? && GetKey(d, "city").value.JObj?
    requires GetKey(d, "list") == Ok(JList(items))
    ensures GetKey(ForecastAfter(d), "city") == GetKey(d, "city")
    ensures GetKey(ForecastAfter(d), "list") == Ok(JList(AfterPrefix(items, FirstFailure(items))))
  {
    ForecastAfterEffect(d);
  }

  /** An entry the loop normalised whose `weather` list started with a dict
      fails a second pass: its `weather` is now that dict, and `{...}[0]`
      raises `KeyError(0)`. */
  lemma SecondEntryFails(items: seq<Json>, i: nat, w: Json)
    requires i < FirstFailure(items)
    requires GetKey(items[i], "weather").Ok? && First(GetKey(items[i], "weather").value) == Ok(w) && w.JObj?
    ensures NormaliseEntry(AfterPrefix(items, FirstFailure(items))[i]) == Err(KeyError(JInt(0)))
  {
    var e := NormaliseEntry(items[i]).value;
    assert AfterPrefix(items, FirstFailure(items))[i] == Normalised(items[i]) == e;
    assert e == JObj(Assign(items[i].fields, "weather", w));
    AssignSpec(items[i].fields, "weather", w);
    assert GetKey(e, "weather") == Ok(w);
  }
}
