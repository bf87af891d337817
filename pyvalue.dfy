/** The values a YAML or JSON document loads into in Python, with the
    dictionary operations the two scripts use on them: `key in v`,
    `v[key]`, `v[key] = x`, `v.get(key, default)`, truthiness, `str(v)`
    and `int(s)`. Dictionaries keep their insertion order, as Python's do;
    their keys are strings. An operation Python would reject with an
    exception gives `Err` with that exception's kind and message. */
module PyValue {
  import opened Strings

  datatype Option<+T> = None | Some(value: T)

  datatype ErrorKind = TypeError | KeyError | AttributeError | ValueError | OSError

  /** A raised exception; `message` is what `str(e)` gives. */
  datatype Exception = Exception(kind: ErrorKind, message: string)

  datatype Result<+T> = Ok(value: T) | Err(error: Exception) {
    predicate IsFailure() {
      Err?
    }

    function PropagateFailure<U>(): Result<U>
      requires Err?
    {
      Err(error)
    }

    function Extract(): T
      requires Ok?
    {
      value
    }
  }

  datatype Value =
    | Null
    | Bool(b: bool)
    | Int(i: int)
    | Str(s: string)
    | List(items: seq<Value>)
    | Dict(fields: seq<Field>)
      /** Any other scalar a document loads into (a float, a date, a
          timestamp), known by its type's name, its `str` and its truth
          value. */
    | Scalar(typeName: string, text: string, truthy: bool)

  datatype Field = Field(key: string, val: Value)

  /** Python's `type(v).__name__`. */
  function TypeName(v: Value): string {
    match v
    case Null => "NoneType"
    case Bool(_) => "bool"
    case Int(_) => "int"
    case Str(_) => "str"
    case List(_) => "list"
    case Dict(_) => "dict"
    case Scalar(name, _, _) => name
  }

  /** Python's `bool(v)`: `None`, `False`, `0` and empty strings, lists and
      dictionaries are false. */
  predicate Truthy(v: Value) {
    match v
    case Null => false
    case Bool(b) => b
    case Int(i) => i != 0
    case Str(s) => s != []
    case List(items) => items != []
    case Dict(fields) => fields != []
    case Scalar(_, _, truthy) => truthy
  }

  function Keys(fields: seq<Field>): seq<string>
    decreases |fields|
  {
    if fields == [] then [] else [fields[0].key] + Keys(fields[1..])
  }

  /** The value stored under `key`. */
  function Lookup(fields: seq<Field>, key: string): (r: Option<Value>)
    ensures r.Some? <==> key in Keys(fields)
    decreases |fields|
  {
    if fields == [] then None
    else if fields[0].key == key then Some(fields[0].val)
    else Lookup(fields[1..], key)
  }

  /** Python dictionaries never hold a key twice. */
  predicate UniqueKeys(fields: seq<Field>) {
    forall i, j :: 0 <= i < j < |fields| ==> fields[i].key != fields[j].key
  }

  function Replace(fields: seq<Field>, key: string, v: Value): seq<Field>
    decreases |fields|
  {
    if fields == [] then []
    else if fields[0].key == key then [Field(key, v)] + fields[1..]
    else [fields[0]] + Replace(fields[1..], key, v)
  }

  /** Storing back the value a key already has changes nothing. */
  lemma {:induction false} ReplaceSame(fields: seq<Field>, key: string, v: Value)
    requires Lookup(fields, key) == Some(v)
    ensures Replace(fields, key, v) == fields
    decreases |fields|
  {
    if fields[0].key != key {
      ReplaceSame(fields[1..], key, v);
    }
  }

  /** Python's `d[key] = v`: an existing key keeps its place, a new key
      goes last. */
  function Assign(fields: seq<Field>, key: string, v: Value): seq<Field> {
    if key in Keys(fields) then Replace(fields, key, v) else fields + [Field(key, v)]
  }

  lemma {:induction false} ReplaceKeys(fields: seq<Field>, key: string, v: Value)
    ensures Keys(Replace(fields, key, v)) == Keys(fields)
    decreases |fields|
  {
    if fields != [] && fields[0].key != key {
      ReplaceKeys(fields[1..], key, v);
    }
  }

  lemma {:induction false} ReplaceLookup(fields: seq<Field>, key: string, v: Value, other: string)
    ensures Lookup(Replace(fields, key, v), other) ==
      if other == key && key in Keys(fields) then Some(v) else Lookup(fields, other)
    decreases |fields|
  {
    if fields != [] && fields[0].key != key {
      ReplaceLookup(fields[1..], key, v, other);
    }
  }

  lemma {:induction false} AppendKeys(fields: seq<Field>, f: Field)
    ensures Keys(fields + [f]) == Keys(fields) + [f.key]
    decreases |fields|
  {
    if fields != [] {
      AppendKeys(fields[1..], f);
      assert (fields + [f])[1..] == fields[1..] + [f];
    }
  }

  lemma {:induction false} AppendLookup(fields: seq<Field>, f: Field, other: string)
    ensures Lookup(fields + [f], other) ==
      if other in Keys(fields) then Lookup(fields, other)
      else if other == f.key then Some(f.val) else None
    decreases |fields|
  {
    if fields != [] {
      AppendLookup(fields[1..], f, other);
      assert (fields + [f])[1..] == fields[1..] + [f];
    }
  }

  lemma KeysIndex(fields: seq<Field>)
    ensures |Keys(fields)| == |fields|
    ensures forall i :: 0 <= i < |fields| ==> Keys(fields)[i] == fields[i].key
    decreases |fields|
  {
    if fields != [] {
      KeysIndex(fields[1..]);
    }
  }

  /** Assignment keeps the order of the existing keys, appends a new key,
      stores the value under the key and leaves every other key's value as
      it was; it keeps the keys distinct. */
  lemma AssignSpec(fields: seq<Field>, key: string, v: Value)
    ensures Keys(Assign(fields, key, v)) ==
      if key in Keys(fields) then Keys(fields) else Keys(fields) + [key]
    ensures forall other :: (Lookup(Assign(fields, key, v), other) ==
      if other == key then Some(v) else Lookup(fields, other))
    ensures UniqueKeys(fields) ==> UniqueKeys(Assign(fields, key, v))
  {
    var r := Assign(fields, key, v);
    if key in Keys(fields) {
      ReplaceKeys(fields, key, v);
      forall other ensures Lookup(r, other) == if other == key then Some(v) else Lookup(fields, other) {
        ReplaceLookup(fields, key, v, other);
      }
    } else {
      AppendKeys(fields, Field(key, v));
      forall other ensures Lookup(r, other) == if other == key then Some(v) else Lookup(fields, other) {
        AppendLookup(fields, Field(key, v), other);
      }
    }
    KeysIndex(fields);
    KeysIndex(r);
  }

  /** Python's `key in v` for a string `key`: a key test on a dictionary,
      a substring test on a string, a membership test on a list; any other
      value is not iterable. */
  function In(key: string, v: Value): (r: Result<bool>)
    ensures v.Dict? ==> r == Ok(key in Keys(v.fields))
    ensures v.Str? ==> r == Ok(Contains(v.s, key))
    ensures r.Err? <==> (v.Null? || v.Bool? || v.Int? || v.Scalar?)
  {
    match v
    case Dict(fields) => Ok(key in Keys(fields))
    case Str(s) => Ok(Contains(s, key))
    case List(items) => Ok(Str(key) in items)
    case _ => Err(Exception(TypeError, "argument of type '" + TypeName(v) + "' is not iterable"))
  }

  /** Python's `v[key]` for a string `key`. */
  function Index(v: Value, key: string): (r: Result<Value>)
    ensures r.Ok? <==> v.Dict? && key in Keys(v.fields)
    ensures r.Ok? ==> Lookup(v.fields, key) == Some(r.value)
  {
    match v
    case Dict(fields) =>
      (match Lookup(fields, key)
       case Some(x) => Ok(x)
       case None => Err(Exception(KeyError, "'" + key + "'")))
    case Str(_) => Err(Exception(TypeError, "string indices must be integers, not 'str'"))
    case List(_) => Err(Exception(TypeError, "list indices must be integers or slices, not str"))
    case _ => Err(Exception(TypeError, "'" + TypeName(v) + "' object is not subscriptable"))
  }

  /** Python's `v[key] = x` for a string `key`, as the value `v` holds afterwards. */
  function SetItem(v: Value, key: string, x: Value): (r: Result<Value>)
    ensures r.Ok? <==> v.Dict?
    ensures r.Ok? ==> r.value == Dict(Assign(v.fields, key, x))
  {
    match v
    case Dict(fields) => Ok(Dict(Assign(fields, key, x)))
    case List(_) => Err(Exception(TypeError, "list indices must be integers or slices, not str"))
    case _ => Err(Exception(TypeError, "'" + TypeName(v) + "' object does not support item assignment"))
  }

  /** Python's `d.get(key, default)`; anything but a dictionary has no `get`. */
  function Get(v: Value, key: string, default: Value): (r: Result<Value>)
    ensures r.Ok? <==> v.Dict?
    ensures v.Dict? && key in Keys(v.fields) ==> Lookup(v.fields, key) == Some(r.value)
    ensures v.Dict? && key !in Keys(v.fields) ==> r.value == default
  {
    match v
    case Dict(fields) =>
      (match Lookup(fields, key)
       case Some(x) => Ok(x)
       case None => Ok(default))
    case _ => Err(Exception(AttributeError, "'" + TypeName(v) + "' object has no attribute 'get'"))
  }

  /** Python's `s.replace(pat, rep)` called on a value that may not be a string. */
  function StrReplace(v: Value, pat: string, rep: string): (r: Result<string>)
    requires pat != []
    ensures r.Ok? <==> v.Str?
    ensures v.Str? && !Contains(v.s, pat) ==> r == Ok(v.s)
  {
    match v
    case Str(s) => ReplaceAbsentHolds(s, pat, rep); Ok(ReplaceAll(s, pat, rep))
    case _ => Err(Exception(AttributeError, "'" + TypeName(v) + "' object has no attribute 'replace'"))
  }

  lemma ReplaceAbsentHolds(s: string, pat: string, rep: string)
    requires pat != []
    ensures !Contains(s, pat) ==> ReplaceAll(s, pat, rep) == s
  {
    if !Contains(s, pat) {
      ReplaceAbsent(s, pat, rep);
    }
  }

  /** What `for x in v` visits: a list's items, a dictionary's keys, a
      string's characters; any other value is not iterable. */
  function Iterate(v: Value): (r: Result<seq<Value>>)
    ensures r.Ok? <==> v.List? || v.Dict? || v.Str?
    ensures v.List? ==> r == Ok(v.items)
    ensures v.Dict? ==> |r.value| == |v.fields| && forall k :: 0 <= k < |v.fields| ==> r.value[k] == Str(v.fields[k].key)
    ensures v.Str? ==> |r.value| == |v.s| && forall k :: 0 <= k < |v.s| ==> r.value[k] == Str([v.s[k]])
  {
    match v
    case List(items) => Ok(items)
    case Dict(fields) => Ok(seq(|fields|, k requires 0 <= k < |fields| => Str(fields[k].key)))
    case Str(s) => Ok(seq(|s|, k requires 0 <= k < |s| => Str([s[k]])))
    case _ => Err(Exception(TypeError, "'" + TypeName(v) + "' object is not iterable"))
  }

  /** Python's `str(v)`; strings inside lists and dictionaries are quoted
      with single quotes. */
  function PyStr(v: Value): string {
    match v
    case Str(s) => s
    case _ => Repr(v)
  }

  function Repr(v: Value): string
    decreases v, 1
  {
    match v
    case Null => "None"
    case Bool(b) => if b then "True" else "False"
    case Int(i) => IntToString(i)
    case Str(s) => "'" + s + "'"
    case List(items) => "[" + ReprItems(v, items) + "]"
    case Dict(fields) => "{" + ReprFields(v, fields) + "}"
    case Scalar(_, text, _) => text
  }

  function ReprItems(ghost parent: Value, items: seq<Value>): string
    requires forall k :: 0 <= k < |items| ==> items[k] < parent
    decreases parent, 0, |items|
  {
    if items == [] then []
    else Repr(items[0]) + (if |items| == 1 then "" else ", " + ReprItems(parent, items[1..]))
  }

  function ReprFields(ghost parent: Value, fields: seq<Field>): string
    requires forall k :: 0 <= k < |fields| ==> fields[k].val < parent
    decreases parent, 0, |fields|
  {
    if fields == [] then []
    else
      "'" + fields[0].key + "': " + Repr(fields[0].val)
      + (if |fields| == 1 then "" else ", " + ReprFields(parent, fields[1..]))
  }

  /** Python's `int(s)` on an optionally signed string of decimal digits. */
  function ParseInt(s: string): (r: Result<int>)
    ensures r.Err? ==> r.error.kind == ValueError
  {
    var body := if s != [] && (s[0] == '-' || s[0] == '+') then s[1..] else s;
    if body != [] && AllDigits(body) then
      Ok(if s[0] == '-' then -(DigitsValue(body) as int) else DigitsValue(body))
    else
      Err(Exception(ValueError, "invalid literal for int() with base 10: '" + s + "'"))
  }

  /** `int(str(i)) == i` for every integer. */
  lemma ParseIntToString(i: int)
    ensures ParseInt(IntToString(i)) == Ok(i)
  {
    var n: nat := if i < 0 then -i else i;
    var d := NatToString(n);
    NatToStringDigits(n);
    assert IsDigit(d[0]);
    if i < 0 {
      var s := "-" + d;
      assert s[0] == '-' && s[1..] == d;
      assert ParseInt(s) == Ok(-(DigitsValue(d) as int));
    } else {
      assert ParseInt(d) == Ok(DigitsValue(d) as int);
    }
  }
}
