/**
 * Decoded JSON values as Python's `json` module produces them: objects are
 * dictionaries, arrays are lists, and integers and non-integers are told
 * apart (`int` and `float`). Numbers are only carried, never computed on.
 */
module JsonModel {
  import opened Results
  import opened IsoDate

  datatype Json =
    | JNull
    | JBool(b: bool)
    | JInt(i: int)
    | JFloat(r: real)
    | JStr(s: string)
    | JArr(items: seq<Json>)
    | JObj(fields: map<string, Json>)

  /** Why a record could not be built from a decoded object. */
  datatype FieldError =
    | NotAnObject              // indexing something that is not a dictionary (Python's TypeError)
    | KeyMissing(key: string)  // Python's KeyError
    | WrongType(key: string)   // a value of a type the record cannot take (Python's TypeError where Python checks)
    | BadValue(key: string)    // a string that does not parse (Python's ValueError)

  /** The errors Python raises as `TypeError` rather than `KeyError` or `ValueError`. */
  predicate IsTypeError(e: FieldError) {
    e.NotAnObject? || e.WrongType?
  }

  /** `data[key]`. */
  function Field(j: Json, key: string): (r: Result<Json, FieldError>)
    ensures r.Ok? <==> j.JObj? && key in j.fields
    ensures r.Ok? ==> r.value == j.fields[key]
    ensures !j.JObj? ==> r == Err(NotAnObject)
    ensures j.JObj? && key !in j.fields ==> r == Err(KeyMissing(key))
  {
    if !j.JObj? then Err(NotAnObject)
    else if key !in j.fields then Err(KeyMissing(key))
    else Ok(j.fields[key])
  }

  function GetInt(j: Json, key: string): (r: Result<int, FieldError>)
    ensures r.Ok? <==> j.JObj? && key in j.fields && j.fields[key].JInt?
    ensures r.Ok? ==> r.value == j.fields[key].i
  {
    var v :- Field(j, key);
    if v.JInt? then Ok(v.i) else Err(WrongType(key))
  }

  function GetBool(j: Json, key: string): (r: Result<bool, FieldError>)
    ensures r.Ok? <==> j.JObj? && key in j.fields && j.fields[key].JBool?
    ensures r.Ok? ==> r.value == j.fields[key].b
  {
    var v :- Field(j, key);
    if v.JBool? then Ok(v.b) else Err(WrongType(key))
  }

  function GetStr(j: Json, key: string): (r: Result<string, FieldError>)
    ensures r.Ok? <==> j.JObj? && key in j.fields && j.fields[key].JStr?
    ensures r.Ok? ==> r.value == j.fields[key].s
  {
    var v :- Field(j, key);
    if v.JStr? then Ok(v.s) else Err(WrongType(key))
  }

  /** A string or `null` stored under `key`, taken over as an optional string. */
  function GetOptStr(j: Json, key: string): (r: Result<Option<string>, FieldError>)
    ensures r.Ok? <==> j.JObj? && key in j.fields && (j.fields[key].JStr? || j.fields[key].JNull?)
    ensures r.Ok? ==> r.value == (if j.fields[key].JStr? then Some(j.fields[key].s) else None)
  {
    var v :- Field(j, key);
    if v.JStr? then Ok(Some(v.s)) else if v.JNull? then Ok(None) else Err(WrongType(key))
  }

  /** Whether Python's `float()` accepts a decoded number (booleans are integers in Python). */
  predicate IsNumber(v: Json) {
    v.JInt? || v.JFloat? || v.JBool?
  }

  function AsFloat(v: Json): real
    requires IsNumber(v)
  {
    match v
    case JInt(i) => i as real
    case JFloat(r) => r
    case JBool(b) => if b then 1.0 else 0.0
  }

  /**
   * `float(data[key])` on integers, floats and booleans. The model refuses
   * every string as a `ValueError`, although `float()` parses numeric text
   * such as `"1.5"`; any other value that is not a number is a `TypeError`.
   */
  function GetFloat(j: Json, key: string): (r: Result<real, FieldError>)
    ensures r.Ok? <==> j.JObj? && key in j.fields && IsNumber(j.fields[key])
    ensures r.Ok? ==> r.value == AsFloat(j.fields[key])
    ensures j.JObj? && key in j.fields && j.fields[key].JStr? ==> r == Err(BadValue(key))
    ensures j.JObj? && key in j.fields && !IsNumber(j.fields[key]) && !j.fields[key].JStr? ==> r == Err(WrongType(key))
  {
    var v :- Field(j, key);
    if IsNumber(v) then Ok(AsFloat(v))
    else if v.JStr? then Err(BadValue(key))
    else Err(WrongType(key))
  }

  /**
   * What `for x in v` visits: a list's items, or a string's characters as
   * one-character strings; an empty dictionary visits nothing. `None` when
   * `v` is not iterable, and also for a non-empty dictionary: its items are
   * its keys, strings that no record constructor accepts, so every caller
   * fails on it as on a non-object (see `GetIterable`).
   */
  function Iterated(v: Json): (r: Option<seq<Json>>)
    ensures v.JArr? ==> r == Some(v.items)
    ensures v.JStr? ==> r.Some? && |r.value| == |v.s| && forall i :: 0 <= i < |v.s| ==> r.value[i] == JStr([v.s[i]])
    ensures v.JObj? && v.fields == map[] ==> r == Some([])
    ensures r.None? <==> !(v.JArr? || v.JStr? || (v.JObj? && v.fields == map[]))
  {
    match v
    case JArr(items) => Some(items)
    case JStr(text) => Some(seq(|text|, i requires 0 <= i < |text| => JStr([text[i]])))
    case JObj(fields) => if fields == map[] then Some([]) else None
    case _ => None
  }

  /**
   * The items of `for x in data[key]`. Iterating null, a number or a
   * boolean is a `TypeError`; a non-empty dictionary fails as its first key
   * would, as a string that is not an object.
   */
  function GetIterable(j: Json, key: string): (r: Result<seq<Json>, FieldError>)
    ensures !j.JObj? ==> r == Err(NotAnObject)
    ensures j.JObj? && key !in j.fields ==> r == Err(KeyMissing(key))
    ensures r.Ok? <==> j.JObj? && key in j.fields && Iterated(j.fields[key]).Some?
    ensures r.Ok? ==> r.value == Iterated(j.fields[key]).value
    ensures j.JObj? && key in j.fields && Iterated(j.fields[key]).None? ==>
              r == Err(if j.fields[key].JObj? then NotAnObject else WrongType(key))
  {
    var v :- Field(j, key);
    match Iterated(v)
    case Some(items) => Ok(items)
    case None => Err(if v.JObj? then NotAnObject else WrongType(key))
  }

  function GetArray(j: Json, key: string): (r: Result<seq<Json>, FieldError>)
    ensures r.Ok? <==> j.JObj? && key in j.fields && j.fields[key].JArr?
    ensures j.JObj? && key !in j.fields ==> r == Err(KeyMissing(key))
    ensures r.Ok? ==> r.value == j.fields[key].items
  {
    var v :- Field(j, key);
    if v.JArr? then Ok(v.items) else Err(WrongType(key))
  }

  predicate AllStrings(items: seq<Json>) {
    forall i :: 0 <= i < |items| ==> items[i].JStr?
  }

  function Strings(items: seq<Json>): (r: seq<string>)
    requires AllStrings(items)
    ensures |r| == |items| && forall i :: 0 <= i < |items| ==> items[i] == JStr(r[i])
  {
    seq(|items|, i requires 0 <= i < |items| => items[i].s)
  }

  function StringsToJson(ss: seq<string>): (r: seq<Json>)
    ensures AllStrings(r) && Strings(r) == ss
  {
    var r := seq(|ss|, i requires 0 <= i < |ss| => JStr(ss[i]));
    assert Strings(r) == ss;
    r
  }

  /** A list of strings stored under `key`, taken over unchanged. */
  function GetStringList(j: Json, key: string): (r: Result<seq<string>, FieldError>)
    ensures r.Ok? <==> j.JObj? && key in j.fields && j.fields[key].JArr? && AllStrings(j.fields[key].items)
    ensures r.Ok? ==> StringsToJson(r.value) == j.fields[key].items
  {
    var items :- GetArray(j, key);
    if AllStrings(items) then
      assert StringsToJson(Strings(items)) == items;
      Ok(Strings(items))
    else Err(WrongType(key))
  }

  /**
   * A list comprehension `[f(x) for x in items]` whose element constructor may
   * raise: the first failing element's error propagates, otherwise every
   * element is converted in order.
   */
  function MapAll<T>(items: seq<Json>, f: Json -> Result<T, FieldError>): (r: Result<seq<T>, FieldError>)
    ensures r.Ok? <==> forall i :: 0 <= i < |items| ==> f(items[i]).Ok?
    ensures r.Ok? ==> |r.value| == |items| && forall i :: 0 <= i < |items| ==> f(items[i]) == Ok(r.value[i])
    ensures r.Err? ==> exists i :: 0 <= i < |items| && f(items[i]) == Err(r.error)
                                  && forall k :: 0 <= k < i ==> f(items[k]).Ok?
  {
    if items == [] then Ok([])
    else
      match f(items[0])
      case Err(e) => Err(e)
      case Ok(x) =>
        match MapAll(items[1..], f)
        case Err(e) =>
          assert forall k :: 1 <= k < |items| ==> items[1..][k - 1] == items[k];
          Err(e)
        case Ok(xs) =>
          assert forall k :: 1 <= k < |items| ==> items[1..][k - 1] == items[k];
          Ok([x] + xs)
  }

  /**
   * A decoded date: an ISO `YYYY-MM-DD` string under `key`.
   * `date.fromisoformat` raises `TypeError` for a value that is not a
   * string, and `ValueError` for a string that is not a date.
   */
  function GetDate(j: Json, key: string): (r: Result<Date, FieldError>)
    ensures r.Ok? <==> j.JObj? && key in j.fields && j.fields[key].JStr? && ParseDate(j.fields[key].s).Some?
    ensures j.JObj? && key in j.fields && !j.fields[key].JStr? ==> r == Err(WrongType(key))
    ensures j.JObj? && key in j.fields && j.fields[key].JStr? && ParseDate(j.fields[key].s).None? ==> r == Err(BadValue(key))
    ensures r.Ok? ==> Some(r.value) == ParseDate(j.fields[key].s) && FormatDate(r.value) == j.fields[key].s
    ensures r.Ok? ==> ValidDate(r.value)
  {
    var s :- GetStr(j, key);
    match ParseDate(s)
    case None => Err(BadValue(key))
    case Some(d) =>
      ParseThenFormat(s);
      Ok(d)
  }

}
