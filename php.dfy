/** The slice of PHP's value semantics the client relies on: what
    json_decode($body, true) produces, string truthiness (`!$x`) and
    `isset` along a chain of array subscripts. */
module Php {

  datatype Option<+T> = None | Some(value: T)

  /** A PHP array key. JSON list positions (and object keys such as "0")
      become integer keys; every other object key stays a string. */
  datatype Key = IntKey(i: int) | StrKey(s: string)

  /** A decoded JSON value. JSON objects and JSON lists both decode to PHP
      arrays; a number is kept as an opaque real (float precision is not
      modelled). */
  datatype Val =
    | Null
    | Bool(b: bool)
    | Num(x: real)
    | Str(s: string)
    | Arr(entries: map<Key, Val>)

  /** PHP truthiness of a string: "" and "0" are the only falsy strings. */
  predicate Truthy(s: string) {
    s != "" && s != "0"
  }

  /** Truthiness of a `?string`: null is falsy. */
  predicate TruthyOpt(o: Option<string>) {
    o.Some? && Truthy(o.value)
  }

  /** The value reached by the chained subscript `$v[k1][k2]...`, or None
      when some step does not reach an array holding the key. */
  function Lookup(v: Val, path: seq<Key>): Option<Val>
    decreases |path|
  {
    if path == [] then Some(v)
    else match v
      case Arr(m) => if path[0] in m then Lookup(m[path[0]], path[1..]) else None
      case _ => None
  }

  /** `isset($v[k1][k2]...)`: the path is reached and its value is not null. */
  predicate IsSet(v: Val, path: seq<Key>) {
    Lookup(v, path).Some? && Lookup(v, path).value != Null
  }

  /** One subscript step: `$v[k]` followed by the rest of the path. */
  lemma LookupStep(v: Val, k: Key, rest: seq<Key>)
    ensures Lookup(v, [k] + rest) ==
            if v.Arr? && k in v.entries then Lookup(v.entries[k], rest) else None
  {
    assert ([k] + rest)[0] == k;
    assert ([k] + rest)[1..] == rest;
  }

  /** A single subscript `$v[k]`. */
  lemma LookupKey(v: Val, k: Key)
    ensures Lookup(v, [k]) == if v.Arr? && k in v.entries then Some(v.entries[k]) else None
  {
    LookupStep(v, k, []);
    assert [k] + [] == [k];
  }

  /** Continues a lookup that may already have failed. */
  function LookupFrom(o: Option<Val>, path: seq<Key>): Option<Val> {
    match o
    case None => None
    case Some(w) => Lookup(w, path)
  }

  /** Chained subscripts compose: looking up `p + q` is looking up `p` and
      then `q` inside what was found. */
  lemma {:induction false} LookupConcat(v: Val, p: seq<Key>, q: seq<Key>)
    ensures Lookup(v, p + q) == LookupFrom(Lookup(v, p), q)
    decreases |p|
  {
    if p == [] {
      assert p + q == q;
    } else {
      assert (p + q)[0] == p[0];
      assert (p + q)[1..] == p[1..] + q;
      match v
      case Arr(m) =>
        if p[0] in m {
          LookupConcat(m[p[0]], p[1..], q);
        }
      case _ =>
    }
  }

  /** `isset` of a longer path implies `isset` of each of its prefixes: a set
      `$r['choices'][0]['message']['content']` means a set `$r['choices']`. */
  lemma {:induction false} IsSetPrefix(v: Val, p: seq<Key>, q: seq<Key>)
    requires IsSet(v, p + q)
    ensures IsSet(v, p)
    ensures Lookup(v, p + q) == Lookup(Lookup(v, p).value, q)
  {
    LookupConcat(v, p, q);
    if q == [] {
      assert p + q == p;
    }
  }
}
