/** JSON values as Python's json module hands them to the pipeline, the
    exceptions the pipeline's subscripts and iterations can raise, and
    Python's insertion-ordered dict, modelled as an association list. */
module Json {

  /** A parsed JSON document. An object keeps its keys in insertion order,
      as a Python dict does. */
  datatype Json =
    | JNull
    | JBool(b: bool)
    | JInt(n: int)
    | JStr(s: string)
    | JList(items: seq<Json>)
    | JObj(fields: seq<(string, Json)>)

  /** The exceptions of the core, and two markers for what the model leaves out. */
  datatype Error =
    | KeyError(key: Json)     // d[k] with k missing; KeyError(JInt(0)) is `{}[0]`
    | IndexError              // `[][0]` or `""[0]`
    | TypeError               // subscripting or iterating a value that does not allow it
    | AttributeError          // `.items()` on something that is not a dict
    | OutOfBoundsDatetime     // an epoch outside pandas' nanosecond Timestamp range
    | FetchFailure            // an exception from the HTTP call that is not a RequestException
    | Unmodelled              // an input whose behaviour the model does not describe

  datatype Option<T> = None | Some(value: T)

  datatype Result<T> = Ok(value: T) | Err(error: Error) {
    predicate IsFailure() { Err? }

    function PropagateFailure<U>(): Result<U>
      requires Err?
    {
      Err(error)
    }

    function Extract(): T
      requires Ok?
    {
      value
    }
  }

  // ---------------------------------------------------------------------
  // Ordered dictionaries

  /** The keys of an association list, in order. */
  function Keys<V>(m: seq<(string, V)>): seq<string>
  {
    seq(|m|, i requires 0 <= i < |m| => m[i].0)
  }

  /** No key occurs twice: what every Python dict satisfies. */
  predicate DistinctKeys<V>(m: seq<(string, V)>)
  {
    forall i, j :: 0 <= i < j < |m| ==> m[i].0 != m[j].0
  }

  /** Dropping the last entry drops the last key. */
  lemma KeysStep<V>(m: seq<(string, V)>)
    requires m != []
    ensures Keys(m) == Keys(m[..|m| - 1]) + [m[|m| - 1].0]
  {
  }

  /** A prefix of a dict is a dict. */
  lemma DistinctPrefix<V>(m: seq<(string, V)>, n: nat)
    requires DistinctKeys(m) && n <= |m|
    ensures DistinctKeys(m[..n])
  {
  }

  /** The position of the first entry with key `k`. */
  function IndexOf<V>(m: seq<(string, V)>, k: string): (i: nat)
    requires k in Keys(m)
    ensures i < |m| && m[i].0 == k
    ensures forall j :: 0 <= j < i ==> m[j].0 != k
  {
    if m[0].0 == k then 0
    else
      assert Keys(m) == [m[0].0] + Keys(m[1..]);
      1 + IndexOf(m[1..], k)
  }

  /** Two association lists whose keys agree up to the end of the shorter
      one give an existing key the same position. */
  lemma IndexOfSameKeys<V, W>(m: seq<(string, V)>, r: seq<(string, W)>, k: string)
    requires k in Keys(m)
    requires |m| <= |r| && Keys(r)[..|m|] == Keys(m)
    ensures k in Keys(r) && IndexOf(r, k) == IndexOf(m, k)
  {
    var i := IndexOf(m, k);
    assert Keys(r)[i] == Keys(m)[i];
    forall j | 0 <= j < i ensures r[j].0 != k {
      assert Keys(r)[j] == Keys(m)[j];
    }
  }

  /** `d.get(k)`: the value stored under `k`, if any. */
  function Lookup<V>(m: seq<(string, V)>, k: string): (r: Option<V>)
    ensures r.Some? <==> k in Keys(m)
  {
    if k in Keys(m) then Some(m[IndexOf(m, k)].1) else None
  }

  /** `d[k] = v` on a Python dict (see AssignSpec). */
  function Assign<V>(m: seq<(string, V)>, k: string, v: V): seq<(string, V)>
  {
    if k in Keys(m) then m[IndexOf(m, k) := (k, v)] else m + [(k, v)]
  }

  /** Python's dict assignment: an existing key keeps its position and takes
      the new value, a new key is appended, no other key changes, and no key
      ever occurs twice. */
  lemma AssignSpec<V>(m: seq<(string, V)>, k: string, v: V)
    ensures Keys(Assign(m, k, v)) == if k in Keys(m) then Keys(m) else Keys(m) + [k]
    ensures Lookup(Assign(m, k, v), k) == Some(v)
    ensures forall k' :: k' != k ==> Lookup(Assign(m, k, v), k') == Lookup(m, k')
    ensures DistinctKeys(m) ==> DistinctKeys(Assign(m, k, v))
  {
    var r := Assign(m, k, v);
    if k in Keys(m) {
      assert Keys(r) == Keys(m);
      forall k' | k' in Keys(m) ensures IndexOf(r, k') == IndexOf(m, k') {
        IndexOfSameKeys(m, r, k');
      }
    } else {
      assert Keys(r) == Keys(m) + [k];
      forall k' | k' in Keys(m) ensures IndexOf(r, k') == IndexOf(m, k') {
        IndexOfSameKeys(m, r, k');
      }
      forall j | 0 <= j < |m| ensures r[j].0 != k {
        assert Keys(m)[j] == r[j].0;
      }
      assert IndexOf(r, k) == |m|;
    }
  }

  /** Assignment keeps the position of every existing key and puts a new key last. */
  lemma AssignPositions<V>(m: seq<(string, V)>, k: string, v: V, a: string)
    requires a in Keys(m) || a == k
    ensures a in Keys(Assign(m, k, v))
    ensures a in Keys(m) ==> IndexOf(Assign(m, k, v), a) == IndexOf(m, a)
    ensures a !in Keys(m) ==> IndexOf(Assign(m, k, v), a) == |m|
  {
    var r := Assign(m, k, v);
    AssignSpec(m, k, v);
    if a in Keys(m) {
      IndexOfSameKeys(m, r, a);
    } else {
      assert Keys(r) == Keys(m) + [k];
      forall j | 0 <= j < |m| ensures r[j].0 != a {
        assert Keys(r)[j] == Keys(m)[j];
      }
      assert Keys(r)[|m|] == a;
    }
  }

  /** Assigning a new key appends exactly that entry. */
  lemma AssignNew<V>(m: seq<(string, V)>, k: string, v: V)
    requires k !in Keys(m)
    ensures Assign(m, k, v) == m + [(k, v)]
  {
  }

  /** In a dict, the entry at a position is the one its key looks up. */
  lemma LookupAt<V>(m: seq<(string, V)>, i: nat)
    requires DistinctKeys(m) && i < |m|
    ensures Lookup(m, m[i].0) == Some(m[i].1)
  {
    assert Keys(m)[i] == m[i].0;
    var j := IndexOf(m, m[i].0);
    assert j == i;
  }

  /** The key of an entry is a key of the list. */
  lemma KeyOfMember<V>(m: seq<(string, V)>, e: (string, V))
    requires e in m
    ensures e.0 in Keys(m)
  {
    var i :| 0 <= i < |m| && m[i] == e;
    assert Keys(m)[i] == e.0;
  }

  /** In a dict, every entry is what its key looks up. */
  lemma LookupMember<V>(m: seq<(string, V)>, e: (string, V))
    requires DistinctKeys(m) && e in m
    ensures Lookup(m, e.0) == Some(e.1)
  {
    var i :| 0 <= i < |m| && m[i] == e;
    LookupAt(m, i);
  }

  // ---------------------------------------------------------------------
  // Python's subscript and iteration protocols on parsed JSON

  /** `d[k]` for a string key. */
  function GetKey(d: Json, k: string): (r: Result<Json>)
    ensures r.Ok? <==> d.JObj? && k in Keys(d.fields)
    ensures r.Ok? ==> Lookup(d.fields, k) == Some(r.value)
    ensures d.JObj? && k !in Keys(d.fields) ==> r.error == KeyError(JStr(k))
    ensures !d.JObj? ==> r.error == TypeError
  {
    match d
    case JObj(fs) => if k in Keys(fs) then Ok(fs[IndexOf(fs, k)].1) else Err(KeyError(JStr(k)))
    case _ => Err(TypeError)
  }

  /** `v[0]`. A list or string gives its first element (IndexError when
      empty), a dict has no integer key, anything else is not subscriptable. */
  function First(v: Json): Result<Json>
  {
    match v
    case JList(xs) => if |xs| > 0 then Ok(xs[0]) else Err(IndexError)
    case JStr(s) => if |s| > 0 then Ok(JStr(s[..1])) else Err(IndexError)
    case JObj(_) => Err(KeyError(JInt(0)))
    case _ => Err(TypeError)
  }

  /** The elements `for x in v` visits: a list's items, a dict's keys, a
      string's characters; other values are not iterable. */
  function Iterate(v: Json): Result<seq<Json>>
  {
    match v
    case JList(xs) => Ok(xs)
    case JObj(fs) => Ok(seq(|fs|, i requires 0 <= i < |fs| => JStr(fs[i].0)))
    case JStr(s) => Ok(seq(|s|, i requires 0 <= i < |s| => JStr([s[i]])))
    case _ => Err(TypeError)
  }
}
