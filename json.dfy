/**
 * JSON values as JavaScript sees them after `response.json()`, with the language rules the
 * console leans on: truthiness, `||` fallbacks, optional chaining `?.`, `Array.isArray`,
 * `String(v)`, and the TypeError thrown by reading a property of `null`.
 */
module Json {
  import opened Wrappers
  import opened Text
  import Records

  /** JSON numbers are modelled as integers; only their truthiness and printing matter here. */
  datatype Value =
    | Null
    | Bool(b: bool)
    | Num(n: int)
    | Str(s: string)
    | Arr(items: seq<Value>)
    | Obj(fields: seq<(string, Value)>)

  /** JavaScript truthiness: `null`, `false`, `0` and `""` are falsy; arrays and objects are truthy. */
  predicate Truthy(v: Value) {
    match v
    case Null => false
    case Bool(b) => b
    case Num(n) => n != 0
    case Str(s) => s != ""
    case Arr(_) => true
    case Obj(_) => true
  }

  /** Truthiness of a possibly-undefined value. */
  predicate Present(o: Option<Value>) {
    o.Some? && Truthy(o.value)
  }

  /** `o || fallback`. */
  function Or(o: Option<Value>, fallback: Value): (r: Value)
    ensures Present(o) ==> r == o.value
    ensures !Present(o) ==> r == fallback
  {
    if Present(o) then o.value else fallback
  }

  /** `v.key` on a value that is not null: objects look the key up, other values have no such property. */
  function Field(v: Value, key: string): Option<Value> {
    if v.Obj? then Records.Lookup(v.fields, key) else None
  }

  /** `o?.k1?.k2 ...`: every step short-circuits to undefined on `null` or `undefined`. */
  function Chain(o: Option<Value>, path: seq<string>): Option<Value>
    decreases |path|
  {
    if path == [] then o
    else if o.None? || o.value.Null? then None
    else Chain(Field(o.value, path[0]), path[1..])
  }

  /** Optional chains compose: following `p` and then `q` is following `p + q`. */
  lemma {:induction false} ChainAppend(o: Option<Value>, p: seq<string>, q: seq<string>)
    ensures Chain(o, p + q) == Chain(Chain(o, p), q)
    decreases |p|
  {
    if p == [] {
      assert p + q == q;
    } else if o.None? || o.value.Null? {
      assert Chain(o, p) == None;
      if q != [] {
        assert (p + q)[0] == p[0];
      }
    } else {
      assert (p + q)[1..] == p[1..] + q;
      ChainAppend(Field(o.value, p[0]), p[1..], q);
    }
  }

  /** The nested object `{k1: {k2: ... v}}` that a chain over `[k1, k2, ...]` reads back. */
  function Nest(path: seq<string>, v: Value): Value
    decreases |path|
  {
    if path == [] then v else Obj([(path[0], Nest(path[1..], v))])
  }

  /** An optional chain over a nested object finds the innermost value. */
  lemma {:induction false} ChainNest(path: seq<string>, v: Value)
    ensures Chain(Some(Nest(path, v)), path) == Some(v)
    decreases |path|
  {
    if path != [] {
      var entry := [(path[0], Nest(path[1..], v))];
      assert Records.Lookup(entry, path[0]) == Some(Nest(path[1..], v));
      ChainNest(path[1..], v);
    }
  }

  /** `Array.isArray(x) ? x : []`. */
  function ArrayItems(o: Option<Value>): (r: seq<Value>)
    ensures (o.Some? && o.value.Arr?) ==> r == o.value.items
    ensures !(o.Some? && o.value.Arr?) ==> r == []
  {
    if o.Some? && o.value.Arr? then o.value.items else []
  }

  /** The message of the TypeError thrown by reading `key` of `null`. */
  function NullRead(key: string): string {
    "Cannot read properties of null (reading '" + key + "')"
  }

  /** `String(v)`: arrays join their elements with commas, with `null` elements printed empty. */
  function ToJsString(v: Value): string
    decreases v, 1, 0
  {
    match v
    case Null => "null"
    case Bool(b) => if b then "true" else "false"
    case Num(n) => IntToString(n)
    case Str(s) => s
    case Arr(_) => JoinFrom(v, 0)
    case Obj(_) => "[object Object]"
  }

  /** The comma-joined string of the elements of array `v` from index `i` on. */
  function JoinFrom(v: Value, i: nat): string
    requires v.Arr? && i <= |v.items|
    decreases v, 0, |v.items| - i
  {
    if i == |v.items| then ""
    else
      var item := if v.items[i].Null? then "" else ToJsString(v.items[i]);
      item + (if i + 1 == |v.items| then "" else "," + JoinFrom(v, i + 1))
  }

  /** Printing a number and parsing it back with `parseInt` recovers the number. */
  lemma NumStringRoundTrip(n: int)
    ensures ParseInt(ToJsString(Num(n))) == Some(n)
  {
    ParseIntRoundTrip(n);
  }
}
