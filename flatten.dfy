/** The one-level flattener that turns a response dict into one table row:
    a dict-valued entry `K: {s: v}` becomes the column `K_s`, any other entry
    is copied under its own key. It is specified by the sequence of column
    writes it issues (`Writes`) and the dict that assigning them one by one
    builds (`Build`). */
module Flatten {
  import opened Json

  /** One row of a DataFrame: its columns in order with their cells. A column
      missing from a row stands for pandas' NaN. */
  type Row = seq<(string, Json)>

  /** The column name `f"{key}_{subKey}"`. */
  function Column(key: string, subKey: string): string
  {
    key + "_" + subKey
  }

  /** The writes `flattened[f"{key}_{sub_key}"] = sub_value` for one dict value. */
  function Prefixed(key: string, sub: seq<(string, Json)>): seq<(string, Json)>
  {
    seq(|sub|, i requires 0 <= i < |sub| => (Column(key, sub[i].0), sub[i].1))
  }

  /** The writes the flattener issues for the top-level entry `key: value`. */
  function EntryWrites(key: string, value: Json): seq<(string, Json)>
  {
    if value.JObj? then Prefixed(key, value.fields) else [(key, value)]
  }

  /** All the writes for a dict's entries, in iteration order. */
  function Writes(fs: seq<(string, Json)>): seq<(string, Json)>
    decreases |fs|
  {
    if fs == [] then []
    else Writes(fs[..|fs| - 1]) + EntryWrites(fs[|fs| - 1].0, fs[|fs| - 1].1)
  }

  /** The dict that results from performing the writes `ws`, in order, on `{}`. */
  function Build(ws: seq<(string, Json)>): Row
    decreases |ws|
  {
    if ws == [] then []
    else Assign(Build(ws[..|ws| - 1]), ws[|ws| - 1].0, ws[|ws| - 1].1)
  }

  // ---------------------------------------------------------------------
  // The flattener itself

  /** The loop shared by transform_current_weather_data and
      convert_weather_api_dict_to_dataframe. It is total: every dict, whatever
      its nesting, is flattened. */
  method FlattenDict(fs: seq<(string, Json)>) returns (row: Row)
    ensures row == Build(Writes(fs))
  {
    row := [];
    var i := 0;
    while i < |fs|
      invariant 0 <= i <= |fs|
      invariant row == Build(Writes(fs[..i]))
    {
      var key, value := fs[i].0, fs[i].1;
      if value.JObj? {
        row := FlattenInto(row, Writes(fs[..i]), key, value.fields);
        DictEntryStep(fs, i);
      } else {
        ScalarEntryStep(fs, i);
        row := Assign(row, key, value);
      }
      i := i + 1;
    }
    assert fs[..i] == fs;
  }

  /** The inner loop `for sub_key, sub_value in value.items()`: the
      prefixed writes of one dict value, performed on the row built so far. */
  method FlattenInto(row: Row, ghost ws: seq<(string, Json)>, key: string, sub: seq<(string, Json)>)
    returns (r: Row)
    requires row == Build(ws)
    ensures r == Build(ws + Prefixed(key, sub))
  {
    r := row;
    var j := 0;
    PrefixedNone(ws, key, sub);
    while j < |sub|
      invariant 0 <= j <= |sub|
      invariant r == Build(ws + Prefixed(key, sub[..j]))
    {
      PrefixedStep(ws, key, sub, j);
      r := Assign(r, Column(key, sub[j].0), sub[j].1);
      j := j + 1;
    }
    assert sub[..j] == sub;
  }

  lemma WritesStep(fs: seq<(string, Json)>, i: nat)
    requires i < |fs|
    ensures Writes(fs[..i + 1]) == Writes(fs[..i]) + EntryWrites(fs[i].0, fs[i].1)
  {
    assert fs[..i + 1][..i] == fs[..i];
  }

  /** After the inner loop, entry `i`'s writes are done. */
  lemma DictEntryStep(fs: seq<(string, Json)>, i: nat)
    requires i < |fs| && fs[i].1.JObj?
    ensures Build(Writes(fs[..i]) + Prefixed(fs[i].0, fs[i].1.fields)) == Build(Writes(fs[..i + 1]))
  {
    WritesStep(fs, i);
  }

  /** A non-dict entry is a single write. */
  lemma ScalarEntryStep(fs: seq<(string, Json)>, i: nat)
    requires i < |fs| && !fs[i].1.JObj?
    ensures Build(Writes(fs[..i + 1])) == Assign(Build(Writes(fs[..i])), fs[i].0, fs[i].1)
  {
    WritesStep(fs, i);
    BuildStep(Writes(fs[..i]), fs[i]);
  }

  lemma PrefixedNone(ws: seq<(string, Json)>, key: string, sub: seq<(string, Json)>)
    ensures ws + Prefixed(key, sub[..0]) == ws
  {
  }

  lemma PrefixedStep(ws: seq<(string, Json)>, key: string, sub: seq<(string, Json)>, j: nat)
    requires j < |sub|
    ensures Build(ws + Prefixed(key, sub[..j + 1]))
         == Assign(Build(ws + Prefixed(key, sub[..j])), Column(key, sub[j].0), sub[j].1)
  {
    var w := (Column(key, sub[j].0), sub[j].1);
    assert Prefixed(key, sub[..j + 1]) == Prefixed(key, sub[..j]) + [w];
    assert ws + Prefixed(key, sub[..j + 1]) == (ws + Prefixed(key, sub[..j])) + [w];
    BuildStep(ws + Prefixed(key, sub[..j]), w);
  }

  // ---------------------------------------------------------------------
  // Building a dict by successive assignment

  lemma BuildStep(ws: seq<(string, Json)>, w: (string, Json))
    ensures Build(ws + [w]) == Assign(Build(ws), w.0, w.1)
  {
    assert (ws + [w])[..|ws|] == ws;
  }

  /** The built dict has exactly the written columns, each once. */
  lemma {:induction false} BuildColumns(ws: seq<(string, Json)>)
    ensures forall c :: c in Keys(Build(ws)) <==> c in Keys(ws)
    ensures DistinctKeys(Build(ws))
    decreases |ws|
  {
    if ws != [] {
      BuildColumns(ws[..|ws| - 1]);
      KeysStep(ws);
      AssignSpec(Build(ws[..|ws| - 1]), ws[|ws| - 1].0, ws[|ws| - 1].1);
    }
  }

  /** Every cell of the built dict is one of the writes: values are copied,
      never transformed. */
  lemma {:induction false} BuildCells(ws: seq<(string, Json)>)
    ensures forall cell :: cell in Build(ws) ==> cell in ws
    decreases |ws|
  {
    if ws != [] {
      var p := ws[..|ws| - 1];
      var w := ws[|ws| - 1];
      BuildCells(p);
      BuildColumns(p);
      forall cell | cell in Build(ws) ensures cell in ws {
        AssignCell(Build(p), w.0, w.1, cell);
      }
    }
  }

  /** A cell of `Assign(m, k, v)` is `(k, v)` or a cell of `m`. */
  lemma AssignCell(m: Row, k: string, v: Json, cell: (string, Json))
    requires DistinctKeys(m)
    requires cell in Assign(m, k, v)
    ensures cell == (k, v) || cell in m
  {
    var r := Assign(m, k, v);
    AssignSpec(m, k, v);
    var i :| 0 <= i < |r| && r[i] == cell;
    LookupAt(r, i);
    if cell.0 != k {
      var j := IndexOf(m, cell.0);
      assert m[j] == cell;
    }
  }

  /** Later write wins: a column holds the value of the last write to it. */
  lemma {:induction false} BuildLastWrite(ws: seq<(string, Json)>, i: nat)
    requires i < |ws|
    requires forall j :: i < j < |ws| ==> ws[j].0 != ws[i].0
    ensures Lookup(Build(ws), ws[i].0) == Some(ws[i].1)
    decreases |ws|
  {
    AssignSpec(Build(ws[..|ws| - 1]), ws[|ws| - 1].0, ws[|ws| - 1].1);
    if i < |ws| - 1 {
      BuildLastWrite(ws[..|ws| - 1], i);
    }
  }

  /** The position of a key in an association list with one more entry. */
  lemma IndexOfStep<V>(ws: seq<(string, V)>, a: string)
    requires ws != [] && a in Keys(ws)
    ensures a in Keys(ws[..|ws| - 1]) ==> IndexOf(ws, a) == IndexOf(ws[..|ws| - 1], a)
    ensures a !in Keys(ws[..|ws| - 1]) ==> IndexOf(ws, a) == |ws| - 1
  {
    var p := ws[..|ws| - 1];
    KeysStep(ws);
    if a in Keys(p) {
      IndexOfSameKeys(p, ws, a);
    } else {
      forall j | 0 <= j < |p| ensures ws[j].0 != a {
        assert Keys(p)[j] == ws[j].0;
      }
    }
  }

  /** First insertion keeps its place: columns stand in the order of their
      first writes. */
  lemma {:induction false} BuildOrder(ws: seq<(string, Json)>, a: string, b: string)
    requires a in Keys(ws) && b in Keys(ws)
    ensures a in Keys(Build(ws)) && b in Keys(Build(ws))
    ensures IndexOf(Build(ws), a) < IndexOf(Build(ws), b) <==> IndexOf(ws, a) < IndexOf(ws, b)
    decreases |ws|
  {
    var p := ws[..|ws| - 1];
    var w := ws[|ws| - 1];
    KeysStep(ws);
    BuildColumns(p);
    IndexOfStep(ws, a);
    IndexOfStep(ws, b);
    AssignPositions(Build(p), w.0, w.1, a);
    AssignPositions(Build(p), w.0, w.1, b);
    if a in Keys(p) && b in Keys(p) {
      BuildOrder(p, a, b);
    } else if a in Keys(p) {
      assert IndexOf(Build(p), a) < |Build(p)|;
    } else if b in Keys(p) {
      assert IndexOf(Build(p), b) < |Build(p)|;
    }
  }

  /** Writes to distinct columns build exactly themselves. */
  lemma {:induction false} BuildDistinct(ws: seq<(string, Json)>)
    requires DistinctKeys(ws)
    ensures Build(ws) == ws
    decreases |ws|
  {
    if ws != [] {
      var p := ws[..|ws| - 1];
      var w := ws[|ws| - 1];
      DistinctPrefix(ws, |ws| - 1);
      BuildDistinct(p);
      forall j | 0 <= j < |p| ensures Keys(p)[j] != w.0 {
        assert p[j] == ws[j];
      }
      AssignNew(p, w.0, w.1);
      assert p + [w] == ws;
    }
  }

  // ---------------------------------------------------------------------
  // The writes of a dict

  /** Every write of entry `i` is among the writes of the dict. */
  lemma {:induction false} WriteIn(fs: seq<(string, Json)>, i: nat, j: nat)
    requires i < |fs| && j < |EntryWrites(fs[i].0, fs[i].1)|
    ensures EntryWrites(fs[i].0, fs[i].1)[j] in Writes(fs)
    decreases |fs|
  {
    var p := fs[..|fs| - 1];
    if i < |fs| - 1 {
      assert p[i] == fs[i];
      WriteIn(p, i, j);
    }
  }

  /** A cell is written iff some entry writes it. */
  lemma {:induction false} WritesMember(fs: seq<(string, Json)>)
    ensures forall cell :: cell in Writes(fs) <==>
      exists i :: 0 <= i < |fs| && cell in EntryWrites(fs[i].0, fs[i].1)
    decreases |fs|
  {
    if fs != [] {
      var p := fs[..|fs| - 1];
      WritesMember(p);
      forall cell ensures cell in Writes(fs) <==>
        exists i :: 0 <= i < |fs| && cell in EntryWrites(fs[i].0, fs[i].1)
      {
        if cell in Writes(fs) && cell !in Writes(p) {
          assert cell in EntryWrites(fs[|fs| - 1].0, fs[|fs| - 1].1);
        }
        if exists i :: 0 <= i < |fs| && cell in EntryWrites(fs[i].0, fs[i].1) {
          var i :| 0 <= i < |fs| && cell in EntryWrites(fs[i].0, fs[i].1);
          if i < |fs| - 1 {
            assert p[i] == fs[i];
          }
        }
      }
    }
  }

  /** Without dict values, the writes are the entries themselves. */
  lemma {:induction false} WritesScalars(fs: seq<(string, Json)>)
    requires forall i :: 0 <= i < |fs| ==> !fs[i].1.JObj?
    ensures Writes(fs) == fs
    decreases |fs|
  {
    if fs != [] {
      WritesScalars(fs[..|fs| - 1]);
      assert fs[..|fs| - 1] + [fs[|fs| - 1]] == fs;
    }
  }

  // ---------------------------------------------------------------------
  // What the flattener promises

  /** The columns of a flattened row: `K` for each non-dict entry `K`, `K_s`
      for each key `s` of each dict entry `K`, and nothing else. Each column
      occurs once and each cell is a value of the input copied unchanged, so
      values nested deeper than one level pass through as they are. */
  lemma FlattenedColumns(fs: seq<(string, Json)>)
    ensures DistinctKeys(Build(Writes(fs)))
    ensures forall cell :: cell in Build(Writes(fs)) ==>
      exists i :: 0 <= i < |fs| && cell in EntryWrites(fs[i].0, fs[i].1)
    ensures forall i :: 0 <= i < |fs| && !fs[i].1.JObj? ==> fs[i].0 in Keys(Build(Writes(fs)))
    ensures forall i, j :: 0 <= i < |fs| && fs[i].1.JObj? && 0 <= j < |fs[i].1.fields| ==>
      Column(fs[i].0, fs[i].1.fields[j].0) in Keys(Build(Writes(fs)))
  {
    var ws := Writes(fs);
    BuildColumns(ws);
    BuildCells(ws);
    WritesMember(fs);
    forall i | 0 <= i < |fs| && !fs[i].1.JObj? ensures fs[i].0 in Keys(Build(Writes(fs))) {
      EntryColumn(fs, i, 0);
    }
    forall i, j | 0 <= i < |fs| && fs[i].1.JObj? && 0 <= j < |fs[i].1.fields|
      ensures Column(fs[i].0, fs[i].1.fields[j].0) in Keys(Build(Writes(fs)))
    {
      EntryColumn(fs, i, j);
    }
  }

  /** Every column an entry writes is a column of the flattened row. */
  lemma EntryColumn(fs: seq<(string, Json)>, i: nat, j: nat)
    requires i < |fs| && j < |EntryWrites(fs[i].0, fs[i].1)|
    ensures EntryWrites(fs[i].0, fs[i].1)[j].0 in Keys(Build(Writes(fs)))
  {
    WriteIn(fs, i, j);
    KeyOfMember(Writes(fs), EntryWrites(fs[i].0, fs[i].1)[j]);
    BuildColumns(Writes(fs));
  }

  /** Without name collisions, the flattened row is exactly the writes in
      order: `K = v` for a non-dict entry, `K_s = v` for each `s: v` of a
      dict entry `K`. */
  lemma FlattenedWithoutCollision(fs: seq<(string, Json)>)
    requires DistinctKeys(Writes(fs))
    ensures Build(Writes(fs)) == Writes(fs)
    ensures forall i :: 0 <= i < |fs| && !fs[i].1.JObj? ==>
      Lookup(Build(Writes(fs)), fs[i].0) == Some(fs[i].1)
    ensures forall i, j :: 0 <= i < |fs| && fs[i].1.JObj? && 0 <= j < |fs[i].1.fields| ==>
      Lookup(Build(Writes(fs)), Column(fs[i].0, fs[i].1.fields[j].0)) == Some(fs[i].1.fields[j].1)
  {
    BuildDistinct(Writes(fs));
    forall i | 0 <= i < |fs| && !fs[i].1.JObj?
      ensures Lookup(Writes(fs), fs[i].0) == Some(fs[i].1)
    {
      WritesCell(fs, i, 0);
    }
    forall i, j | 0 <= i < |fs| && fs[i].1.JObj? && 0 <= j < |fs[i].1.fields|
      ensures Lookup(Writes(fs), Column(fs[i].0, fs[i].1.fields[j].0)) == Some(fs[i].1.fields[j].1)
    {
      WritesCell(fs, i, j);
    }
  }

  /** With distinct columns, each write of entry `i` is what its column looks up. */
  lemma WritesCell(fs: seq<(string, Json)>, i: nat, j: nat)
    requires DistinctKeys(Writes(fs))
    requires i < |fs| && j < |EntryWrites(fs[i].0, fs[i].1)|
    ensures Lookup(Writes(fs), EntryWrites(fs[i].0, fs[i].1)[j].0) == Some(EntryWrites(fs[i].0, fs[i].1)[j].1)
  {
    WriteIn(fs, i, j);
    LookupMember(Writes(fs), EntryWrites(fs[i].0, fs[i].1)[j]);
  }

  /** A dict without dict values flattens to itself. */
  lemma FlattenedIdentity(fs: seq<(string, Json)>)
    requires DistinctKeys(fs)
    requires forall i :: 0 <= i < |fs| ==> !fs[i].1.JObj?
    ensures Build(Writes(fs)) == fs
  {
    WritesScalars(fs);
    BuildDistinct(fs);
  }

  /** On a collision the later write wins and the column keeps the place of
      its first write: `{"a_b": 1, "a": {"b": 2}}` flattens to `{"a_b": 2}`. */
  lemma FlattenedCollisionExample()
    ensures Build(Writes([("a_b", JInt(1)), ("a", JObj([("b", JInt(2))]))])) == [("a_b", JInt(2))]
  {
    CollisionWrites();
    CollisionBuild();
  }

  lemma CollisionWrites()
    ensures Writes([("a_b", JInt(1)), ("a", JObj([("b", JInt(2))]))]) == [("a_b", JInt(1)), ("a_b", JInt(2))]
  {
    var fs := [("a_b", JInt(1)), ("a", JObj([("b", JInt(2))]))];
    WritesStep(fs, 0);
    WritesStep(fs, 1);
    assert fs[..0] == [] && fs[..2] == fs;
    assert Column("a", "b") == "a_b";
    assert Prefixed("a", [("b", JInt(2))]) == [("a_b", JInt(2))];
  }

  lemma CollisionBuild()
    ensures Build([("a_b", JInt(1)), ("a_b", JInt(2))]) == [("a_b", JInt(2))]
  {
    var w1, w2 := ("a_b", JInt(1)), ("a_b", JInt(2));
    BuildStep([], w1);
    BuildStep([w1], w2);
    assert [] + [w1] == [w1] && [w1] + [w2] == [w1, w2];
    assert Keys([w1]) == ["a_b"];
  }
}
