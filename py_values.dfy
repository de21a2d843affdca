/** The dynamically typed values a webhook payload carries (decoded JSON or
    form fields), and the few Python operations on them that the service
    uses: truthiness, `dict.get`, iteration, `int(...)`, `str(...)` and
    `str.join`. */
module PyValues {
  import opened Results
  import opened Text

  datatype Value =
    | Null
    | Bool(b: bool)
    | Num(n: int)
    | Str(s: string)
    | Lst(items: seq<Value>)
    | Obj(fields: map<string, Value>)

  /** A webhook payload: the top-level dictionary. */
  type Payload = map<string, Value>

  /** Python truthiness: `None`, `False`, `0`, `""`, `[]` and `{}` are false. */
  predicate Truthy(v: Value) {
    match v
    case Null => false
    case Bool(b) => b
    case Num(n) => n != 0
    case Str(s) => s != ""
    case Lst(items) => items != []
    case Obj(fields) => fields != map[]
  }

  /** `d.get(key, default)`. */
  function Get(d: map<string, Value>, key: string, default: Value): Value {
    if key in d then d[key] else default
  }

  /** `d.get(key, default)` where `d` is itself a value: anything but a
      dictionary has no `get` and raises `AttributeError`. */
  function GetOn(d: Value, key: string, default: Value): (r: Result<Value>)
    ensures r.Ok? <==> d.Obj?
  {
    if d.Obj? then Ok(Get(d.fields, key, default)) else Err("AttributeError")
  }

  /** The elements `for x in v` visits: a list's items, a string's characters
      (each a one-character string), nothing for an empty dictionary.
      Iterating a non-empty dictionary visits its keys in insertion order,
      which a `map` does not keep, so the model reports it as unsupported. */
  function Iterate(v: Value): (r: Result<seq<Value>>)
    ensures v.Lst? ==> r == Ok(v.items)
    ensures v.Str? ==> r.Ok? && |r.value| == |v.s|
  {
    match v
    case Lst(items) => Ok(items)
    case Str(s) => Ok(seq(|s|, i requires 0 <= i < |s| => Str([s[i]])))
    case Obj(fields) => if fields == map[] then Ok([]) else Err("unsupported: iteration over dict keys")
    case _ => Err("TypeError")
  }

  /** `int(v)`: integers pass through, `bool` is an `int` subclass, strings
      are parsed; anything else is a `TypeError`. */
  function PyInt(v: Value): Result<int> {
    match v
    case Num(n) => Ok(n)
    case Bool(b) => Ok(if b then 1 else 0)
    case Str(s) => (match ParseInt(s) case Some(n) => Ok(n) case None => Err("ValueError"))
    case _ => Err("TypeError")
  }

  /** `repr(v)`, as a list displays its elements. */
  function Repr(v: Value): string
    decreases v, 1
  {
    match v
    case Str(s) => "'" + s + "'"
    case _ => Render(v)
  }

  /** `str(v)`, which is also what an f-string substitutes. */
  function Render(v: Value): string
    decreases v, 0
  {
    match v
    case Null => "None"
    case Bool(b) => if b then "True" else "False"
    case Num(n) => IntToString(n)
    case Str(s) => s
    case Lst(items) => "[" + Join(", ", seq(|items|, i requires 0 <= i < |items| => Repr(items[i]))) + "]"
    case Obj(fields) => if fields == map[] then "{}" else "{...}"
  }

  /** `sep.join(lines)`: every element must be a string, otherwise `TypeError`. */
  function JoinStrings(sep: string, lines: seq<Value>): (r: Result<string>)
    ensures r.Ok? <==> forall i :: 0 <= i < |lines| ==> lines[i].Str?
    ensures r.Ok? ==> r.value == Join(sep, StringsOf(lines))
  {
    if forall i :: 0 <= i < |lines| ==> lines[i].Str? then Ok(Join(sep, StringsOf(lines)))
    else Err("TypeError")
  }

  /** Lines without a newline are recovered from `"\n".join(lines)` by
      splitting it on newlines. */
  lemma JoinStringsSplitsBack(lines: seq<Value>)
    requires |lines| >= 1
    requires forall i :: 0 <= i < |lines| ==> lines[i].Str? && '\n' !in lines[i].s
    ensures JoinStrings("\n", lines).Ok?
    ensures Split(JoinStrings("\n", lines).value, '\n') == StringsOf(lines)
  {
    SplitJoin(StringsOf(lines), '\n');
  }

  function StringsOf(lines: seq<Value>): (r: seq<string>)
    requires forall i :: 0 <= i < |lines| ==> lines[i].Str?
    ensures |r| == |lines| && forall i :: 0 <= i < |lines| ==> r[i] == lines[i].s
  {
    seq(|lines|, i requires 0 <= i < |lines| => lines[i].s)
  }

  /** `q` differs from `p` at most in the given keys, and loses no key. */
  ghost predicate ChangesOnly(p: Payload, q: Payload, keys: set<string>) {
    && p.Keys <= q.Keys
    && q.Keys <= p.Keys + keys
    && forall k :: k in p && k !in keys ==> q[k] == p[k]
  }
}
