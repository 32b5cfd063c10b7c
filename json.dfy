/**
 * The dictionaries `to_dict` produces and `from_dict` reads: JSON-like values, with the
 * lookups `data[key]`, `data.get(key)` and `data.get(key, default)` and the decoding
 * failures Python raises (`KeyError`, `TypeError`, `ValueError`, `IndexError`).
 */
module Json {
  import opened Wrappers

  datatype Json =
    | JNull
    | JBool(b: bool)
    | JInt(i: int)
    | JStr(s: string)
    | JList(items: seq<Json>)
    | JObject(fields: map<string, Json>)

  type Dict = map<string, Json>

  /** Why `from_dict` raised, with the key it was reading. */
  datatype DecodeError =
    | MissingKey(key: string)   // KeyError
    | WrongType(key: string)    // TypeError, or a value of a type the field does not hold
    | BadValue(key: string)     // ValueError, e.g. from `datetime.fromisoformat`
    | BadIndex(key: string)     // IndexError

  /** Python's truth value of a JSON value (`if data.get(key)`). */
  predicate Truthy(j: Json) {
    match j
    case JNull => false
    case JBool(b) => b
    case JInt(i) => i != 0
    case JStr(s) => s != ""
    case JList(l) => |l| > 0
    case JObject(m) => |m| > 0
  }

  function OptStr(o: Option<string>): Json {
    match o
    case None => JNull
    case Some(s) => JStr(s)
  }

  function StrList(xs: seq<string>): (j: Json)
    ensures j.JList? && |j.items| == |xs|
    ensures forall i :: 0 <= i < |xs| ==> j.items[i] == JStr(xs[i])
  {
    JList(seq(|xs|, i requires 0 <= i < |xs| => JStr(xs[i])))
  }

  /** `data[key]` holding a string. */
  function GetStr(d: Dict, key: string): (r: Result<string, DecodeError>)
    ensures r.Ok? <==> key in d && d[key].JStr?
    ensures r.Ok? ==> d[key] == JStr(r.value)
    ensures key !in d ==> r == Err(MissingKey(key))
  {
    if key !in d then Err(MissingKey(key))
    else if d[key].JStr? then Ok(d[key].s)
    else Err(WrongType(key))
  }

  /** `data[key]` holding an integer. */
  function GetInt(d: Dict, key: string): (r: Result<int, DecodeError>)
    ensures r.Ok? <==> key in d && d[key].JInt?
    ensures r.Ok? ==> d[key] == JInt(r.value)
    ensures key !in d ==> r == Err(MissingKey(key))
  {
    if key !in d then Err(MissingKey(key))
    else if d[key].JInt? then Ok(d[key].i)
    else Err(WrongType(key))
  }

  /** `data[key]` holding a boolean. */
  function GetBool(d: Dict, key: string): (r: Result<bool, DecodeError>)
    ensures r.Ok? <==> key in d && d[key].JBool?
    ensures r.Ok? ==> d[key] == JBool(r.value)
    ensures key !in d ==> r == Err(MissingKey(key))
  {
    if key !in d then Err(MissingKey(key))
    else if d[key].JBool? then Ok(d[key].b)
    else Err(WrongType(key))
  }

  /** A list of strings. */
  function AsStrList(j: Json, key: string): (r: Result<seq<string>, DecodeError>)
    ensures r.Ok? ==> j == StrList(r.value)
  {
    if !j.JList? then Err(WrongType(key))
    else if forall i :: 0 <= i < |j.items| ==> j.items[i].JStr? then
      var xs := seq(|j.items|, i requires 0 <= i < |j.items| => j.items[i].s);
      assert j.items == StrList(xs).items;
      Ok(xs)
    else Err(WrongType(key))
  }

  lemma AsStrListOf(xs: seq<string>, key: string)
    ensures AsStrList(StrList(xs), key) == Ok(xs)
  {
    var j := StrList(xs);
    assert forall i :: 0 <= i < |j.items| ==> j.items[i].JStr?;
    var ys := seq(|j.items|, i requires 0 <= i < |j.items| => j.items[i].s);
    assert ys == xs;
  }

  /** `data[key]` holding a list of strings. */
  function GetStrList(d: Dict, key: string): (r: Result<seq<string>, DecodeError>)
    ensures r.Ok? ==> key in d && d[key] == StrList(r.value)
    ensures key !in d ==> r == Err(MissingKey(key))
  {
    if key !in d then Err(MissingKey(key)) else AsStrList(d[key], key)
  }

  /** `data.get(key)` for an optional string: a missing key and `None` both give `None`. */
  function GetOptStr(d: Dict, key: string): (r: Result<Option<string>, DecodeError>)
    ensures key !in d ==> r == Ok(None)
    ensures r == Ok(None) <==> key !in d || d[key] == JNull
    ensures r.Ok? && r.value.Some? ==> key in d && d[key] == JStr(r.value.value)
  {
    if key !in d || d[key] == JNull then Ok(None)
    else if d[key].JStr? then Ok(Some(d[key].s))
    else Err(WrongType(key))
  }

  /** `data.get(key, default)` for a boolean: only a missing key gives the default. */
  function GetBoolOr(d: Dict, key: string, default: bool): (r: Result<bool, DecodeError>)
    ensures key !in d ==> r == Ok(default)
    ensures key in d ==> (r.Ok? <==> d[key].JBool?) && (r.Ok? ==> d[key] == JBool(r.value))
  {
    if key !in d then Ok(default) else if d[key].JBool? then Ok(d[key].b) else Err(WrongType(key))
  }

  /** `data.get(key, default)` for an integer. */
  function GetIntOr(d: Dict, key: string, default: int): (r: Result<int, DecodeError>)
    ensures key !in d ==> r == Ok(default)
    ensures key in d ==> (r.Ok? <==> d[key].JInt?) && (r.Ok? ==> d[key] == JInt(r.value))
  {
    if key !in d then Ok(default) else if d[key].JInt? then Ok(d[key].i) else Err(WrongType(key))
  }

  /** `data.get(key, default)` for a string. */
  function GetStrOr(d: Dict, key: string, default: string): (r: Result<string, DecodeError>)
    ensures key !in d ==> r == Ok(default)
    ensures key in d ==> (r.Ok? <==> d[key].JStr?) && (r.Ok? ==> d[key] == JStr(r.value))
  {
    if key !in d then Ok(default) else if d[key].JStr? then Ok(d[key].s) else Err(WrongType(key))
  }

  /** `data[key]` holding a dictionary. */
  function GetDict(d: Dict, key: string): (r: Result<Dict, DecodeError>)
    ensures r.Ok? <==> key in d && d[key].JObject?
    ensures r.Ok? ==> d[key] == JObject(r.value)
    ensures key !in d ==> r == Err(MissingKey(key))
  {
    if key !in d then Err(MissingKey(key))
    else if d[key].JObject? then Ok(d[key].fields)
    else Err(WrongType(key))
  }

  /** `[f(x) for x in xs]` where each `x` is serialised to a dictionary. */
  function EncodeList<T>(xs: seq<T>, enc: T -> Dict): (j: Json)
    ensures j.JList? && |j.items| == |xs|
    ensures forall i :: 0 <= i < |xs| ==> j.items[i] == JObject(enc(xs[i]))
  {
    JList(seq(|xs|, i requires 0 <= i < |xs| => JObject(enc(xs[i]))))
  }

  /** `[T.from_dict(x) for x in js]`: every element must be a dictionary that decodes; the
      first failure is the one raised. */
  function DecodeItems<T>(js: seq<Json>, key: string, dec: Dict -> Result<T, DecodeError>): (r: Result<seq<T>, DecodeError>)
    ensures r.Ok? ==> |r.value| == |js|
    ensures r.Ok? ==> forall i :: 0 <= i < |js| ==> js[i].JObject? && dec(js[i].fields) == Ok(r.value[i])
  {
    if js == [] then Ok([])
    else if !js[0].JObject? then Err(WrongType(key))
    else
      var x :- dec(js[0].fields);
      var rest :- DecodeItems(js[1..], key, dec);
      Ok([x] + rest)
  }

  /** The same comprehension over the value stored under a key; it must be a list. */
  function DecodeList<T>(j: Json, key: string, dec: Dict -> Result<T, DecodeError>): (r: Result<seq<T>, DecodeError>)
    ensures r.Ok? ==> j.JList? && |r.value| == |j.items|
  {
    if j.JList? then DecodeItems(j.items, key, dec) else Err(WrongType(key))
  }

  /** Decoding the encoding of a list gives back the list when it does so element by
      element. */
  lemma {:induction false} DecodeEncodeList<T>(xs: seq<T>, key: string, enc: T -> Dict, dec: Dict -> Result<T, DecodeError>)
    requires forall i :: 0 <= i < |xs| ==> dec(enc(xs[i])) == Ok(xs[i])
    ensures DecodeList(EncodeList(xs, enc), key, dec) == Ok(xs)
  {
    if xs != [] {
      var j := EncodeList(xs, enc);
      assert j.items[1..] == EncodeList(xs[1..], enc).items;
      DecodeEncodeList(xs[1..], key, enc, dec);
      assert [xs[0]] + xs[1..] == xs;
    }
  }
}
