/**
 * Python's view of decoded JSON (what `json.loads` returns) and the few
 * dictionary and list operations the calibration script applies to it.
 * Floating-point numbers are not modelled. Objects are dicts, which keep
 * their insertion order; their keys are distinct.
 */
module PyJson {
  import opened Wrappers

  datatype Json =
    | JNull
    | JBool(b: bool)
    | JInt(i: int)
    | JStr(s: string)
    | JArr(items: seq<Json>)
    | JObj(fields: seq<Field>)

  datatype Field = Field(key: string, value: Json)

  /** The value stored under `key`. */
  function Lookup(fields: seq<Field>, key: string): (r: Option<Json>)
    ensures r.Some? ==> exists i :: 0 <= i < |fields| && fields[i].key == key && fields[i].value == r.value
    ensures r.None? ==> forall i :: 0 <= i < |fields| ==> fields[i].key != key
  {
    if fields == [] then None
    else if fields[0].key == key then Some(fields[0].value)
    else
      var r := Lookup(fields[1..], key);
      assert r.Some? ==> exists i :: 0 <= i < |fields| - 1 && fields[1..][i].key == key && fields[1..][i].value == r.value;
      r
  }

  /** The value under the first occurrence of `key`. */
  lemma {:induction false} LookupFirst(fields: seq<Field>, key: string, i: nat)
    requires i < |fields| && fields[i].key == key
    requires forall j :: 0 <= j < i ==> fields[j].key != key
    ensures Lookup(fields, key) == Some(fields[i].value)
    decreases i
  {
    if i > 0 {
      LookupFirst(fields[1..], key, i - 1);
    }
  }

  /** The exceptions the script can raise on malformed data. */
  datatype PyError = KeyError(key: string) | TypeError | AttributeError | IndexError | ValueError

  /** A Python evaluation: a value, or the exception it raised. */
  datatype Py<T> = Ok(value: T) | Raised(error: PyError)

  /** A result known to be a value is that value. */
  lemma OkOf<T>(r: Py<T>, v: T)
    requires r.Ok? && r.value == v
    ensures r == Ok(v)
  {
  }

  /** `data[key]`: only a dict can be subscripted by a string. */
  function Subscript(data: Json, key: string): (r: Py<Json>)
    ensures data.JObj? && Lookup(data.fields, key).Some? <==> r.Ok?
    ensures r.Ok? ==> Some(r.value) == Lookup(data.fields, key)
    ensures data.JObj? && Lookup(data.fields, key).None? ==> r == Raised(KeyError(key))
    ensures !data.JObj? ==> r == Raised(TypeError)
  {
    match data
    case JObj(fields) =>
      (match Lookup(fields, key)
       case Some(v) => Ok(v)
       case None => Raised(KeyError(key)))
    case _ => Raised(TypeError)
  }

  /** `data.get(key)`: `None` for a missing key; only dicts have `get`. */
  function GetKey(data: Json, key: string): (r: Py<Json>)
    ensures r.Ok? <==> data.JObj?
    ensures data.JObj? && Lookup(data.fields, key).Some? ==> r == Ok(Lookup(data.fields, key).value)
    ensures data.JObj? && Lookup(data.fields, key).None? ==> r == Ok(JNull)
    ensures !data.JObj? ==> r == Raised(AttributeError)
  {
    match data
    case JObj(fields) =>
      (match Lookup(fields, key)
       case Some(v) => Ok(v)
       case None => Ok(JNull))
    case _ => Raised(AttributeError)
  }

  /** Python truthiness of a decoded value. */
  predicate Truthy(j: Json) {
    match j
    case JNull => false
    case JBool(b) => b
    case JInt(i) => i != 0
    case JStr(s) => s != ""
    case JArr(items) => items != []
    case JObj(fields) => fields != []
  }

  /** `len(j)`: defined for strings, lists and dicts only. */
  function Len(j: Json): (r: Py<nat>)
    ensures r.Ok? <==> j.JStr? || j.JArr? || j.JObj?
    ensures !r.Ok? ==> r == Raised(TypeError)
    ensures r.Ok? ==> (r.value > 0 <==> Truthy(j))
  {
    match j
    case JStr(s) => Ok(|s|)
    case JArr(items) => Ok(|items|)
    case JObj(fields) => Ok(|fields|)
    case _ => Raised(TypeError)
  }

  /**
   * Python `==` on decoded values: `True == 1` and `False == 0`, lists
   * element by element, dicts by keys and values whatever their order.
   */
  predicate PyEq(x: Json, y: Json)
    decreases x
  {
    match x
    case JNull => y.JNull?
    case JBool(b) => (y.JBool? && y.b == b) || (y.JInt? && y.i == (if b then 1 else 0))
    case JInt(i) => (y.JInt? && y.i == i) || (y.JBool? && i == (if y.b then 1 else 0))
    case JStr(s) => y.JStr? && y.s == s
    case JArr(items) =>
      y.JArr? && |items| == |y.items| && forall k :: 0 <= k < |items| ==> PyEq(items[k], y.items[k])
    case JObj(fields) =>
      y.JObj? && |fields| == |y.fields| &&
      forall k :: 0 <= k < |fields| ==>
        Lookup(y.fields, fields[k].key).Some? && PyEq(fields[k].value, Lookup(y.fields, fields[k].key).value)
  }

  /**
   * What iterating over a value yields: the elements of a list, the
   * one-character strings of a string, the keys of a dict; anything else is
   * not iterable.
   */
  function Items(j: Json): (r: Py<seq<Json>>)
    ensures r.Ok? <==> j.JArr? || j.JStr? || j.JObj?
    ensures !r.Ok? ==> r == Raised(TypeError)
    ensures j.JArr? ==> r == Ok(j.items)
  {
    match j
    case JArr(items) => Ok(items)
    case JStr(s) => Ok(seq(|s|, k requires 0 <= k < |s| => JStr([s[k]])))
    case JObj(fields) => Ok(seq(|fields|, k requires 0 <= k < |fields| => JStr(fields[k].key)))
    case _ => Raised(TypeError)
  }

  /**
   * The list comprehension `[f(x) for x in items]`: every result in order,
   * or the exception of the first item that raises.
   */
  function MapItems<T>(items: seq<Json>, f: Json -> Py<T>): (r: Py<seq<T>>)
    ensures r.Ok? <==> forall k :: 0 <= k < |items| ==> f(items[k]).Ok?
    ensures r.Ok? ==> |r.value| == |items| && forall k :: 0 <= k < |items| ==> f(items[k]) == Ok(r.value[k])
    ensures r.Raised? ==> exists k :: 0 <= k < |items| && f(items[k]) == Raised(r.error) &&
                                      forall m :: 0 <= m < k ==> f(items[m]).Ok?
    decreases |items|
  {
    if items == [] then Ok([])
    else
      var init := items[..|items| - 1];
      var last := items[|items| - 1];
      assert forall k :: 0 <= k < |init| ==> init[k] == items[k];
      match MapItems(init, f)
      case Raised(e) => Raised(e)
      case Ok(xs) =>
        match f(last)
        case Raised(e) => Raised(e)
        case Ok(v) => Ok(xs + [v])
  }
}
