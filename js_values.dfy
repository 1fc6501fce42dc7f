/**
 * The slice of JavaScript's value semantics the client relies on: JSON-like
 * values, truthiness, `String(v)`, `String.prototype.trim`, and objects as
 * ordered lists of (key, value) pairs whose keys are unique.
 */
module JsValues {
  import opened Wrappers

  /** A JavaScript value as it flows through the client (numbers are integers here). */
  datatype Value =
    | Undefined
    | Null
    | Bool(b: bool)
    | Num(n: int)
    | Str(s: string)
    | Arr(items: seq<Value>)
    | Obj(fields: seq<(string, Value)>)

  /** JavaScript truthiness: undefined, null, false, 0 and "" are falsy; arrays and objects are truthy. */
  predicate Truthy(v: Value)
  {
    match v
    case Undefined => false
    case Null => false
    case Bool(b) => b
    case Num(n) => n != 0
    case Str(s) => s != ""
    case Arr(_) => true
    case Obj(_) => true
  }

  /** `a || b`: the left operand when it is truthy, the right one otherwise. */
  function Or(a: Value, b: Value): (r: Value)
    ensures Truthy(a) ==> r == a
    ensures !Truthy(a) ==> r == b
  {
    if Truthy(a) then a else b
  }

  // ----- String(v) -----

  function Digit(d: nat): char
    requires d < 10
  {
    "0123456789"[d]
  }

  /** Decimal digits of a natural number, most significant first, no leading zero. */
  function NatToString(n: nat): (r: string)
    ensures |r| > 0
    ensures r[0] != '-'
  {
    if n < 10 then [Digit(n)] else NatToString(n / 10) + [Digit(n % 10)]
  }

  function IntToString(n: int): (r: string)
    ensures |r| > 0
    ensures (r[0] == '-') <==> n < 0
  {
    if n < 0 then "-" + NatToString(-n) else NatToString(n)
  }

  /** `parts.join(sep)` */
  function Join(parts: seq<string>, sep: string): string
  {
    if |parts| == 0 then ""
    else if |parts| == 1 then parts[0]
    else parts[0] + sep + Join(parts[1..], sep)
  }

  /** `String(v)`: arrays join their elements with "," (undefined and null elements as ""). */
  function JsString(v: Value): string
    decreases v
  {
    match v
    case Undefined => "undefined"
    case Null => "null"
    case Bool(b) => if b then "true" else "false"
    case Num(n) => IntToString(n)
    case Str(s) => s
    case Arr(items) =>
      Join(seq(|items|, i requires 0 <= i < |items| =>
             if items[i].Undefined? || items[i].Null? then "" else JsString(items[i])), ",")
    case Obj(_) => "[object Object]"
  }

  // ----- String.prototype.trim -----

  /** The characters ECMAScript's `trim` removes: WhiteSpace and LineTerminator. */
  predicate IsJsWhitespace(c: char)
  {
    c == ' ' || c == '\t' || c == '\n' || c == '\r' || c == '\U{000B}' || c == '\U{000C}'
    || c == '\U{00A0}' || c == '\U{1680}' || ('\U{2000}' <= c <= '\U{200A}')
    || c == '\U{2028}' || c == '\U{2029}' || c == '\U{202F}' || c == '\U{205F}'
    || c == '\U{3000}' || c == '\U{FEFF}'
  }

  /** A string made only of whitespace (the empty string included): `!s.trim()`. */
  predicate Blank(s: string)
  {
    forall i :: 0 <= i < |s| ==> IsJsWhitespace(s[i])
  }

  function TrimStart(s: string): (r: string)
    ensures |r| <= |s| && r == s[|s| - |r|..]
    ensures forall i :: 0 <= i < |s| - |r| ==> IsJsWhitespace(s[i])
    ensures r != [] ==> !IsJsWhitespace(r[0])
  {
    if s != [] && IsJsWhitespace(s[0]) then TrimStart(s[1..]) else s
  }

  function TrimEnd(s: string): (r: string)
    ensures |r| <= |s| && r == s[..|r|]
    ensures forall i :: |r| <= i < |s| ==> IsJsWhitespace(s[i])
    ensures r != [] ==> !IsJsWhitespace(r[|r| - 1])
  {
    if s != [] && IsJsWhitespace(s[|s| - 1]) then TrimEnd(s[..|s| - 1]) else s
  }

  /** `s.trim()`: the result is empty exactly when `s` is blank, and never starts or ends with whitespace. */
  function Trim(s: string): (r: string)
    ensures r == [] <==> Blank(s)
    ensures |r| <= |s|
  {
    TrimEmptyIffBlank(s);
    TrimEnd(TrimStart(s))
  }

  /** Both ends trimmed, nothing is left exactly when every character was whitespace. */
  lemma TrimEmptyIffBlank(s: string)
    ensures TrimEnd(TrimStart(s)) == [] <==> Blank(s)
  {
  }

  /** A trimmed string neither starts nor ends with whitespace. */
  lemma TrimEnds(s: string)
    ensures var r := Trim(s);
            r != [] ==> !IsJsWhitespace(r[0]) && !IsJsWhitespace(r[|r| - 1])
  {
    var t := TrimStart(s);
    var r := TrimEnd(t);
    if r != [] {
      assert r[0] == t[0];
    }
  }

  // ----- objects and URLSearchParams as ordered (key, value) lists -----

  function Keys<V>(ps: seq<(string, V)>): set<string>
  {
    if ps == [] then {} else {ps[0].0} + Keys(ps[1..])
  }

  /** The value stored under `k`, the first pair with that key. */
  function Lookup<V>(ps: seq<(string, V)>, k: string): (r: Option<V>)
    ensures r.Some? <==> k in Keys(ps)
  {
    if ps == [] then None
    else if ps[0].0 == k then Some(ps[0].1)
    else Lookup(ps[1..], k)
  }

  /** No key occurs twice, as in a JavaScript object. */
  predicate UniqueKeys<V>(ps: seq<(string, V)>)
  {
    ps == [] || (ps[0].0 !in Keys(ps[1..]) && UniqueKeys(ps[1..]))
  }

  /** Every pair whose key is `k` removed, the rest in order. */
  function RemoveKey<V>(ps: seq<(string, V)>, k: string): (r: seq<(string, V)>)
    ensures Keys(r) == Keys(ps) - {k}
    ensures forall j :: j != k ==> Lookup(r, j) == Lookup(ps, j)
    ensures UniqueKeys(ps) ==> UniqueKeys(r)
    ensures |r| <= |ps|
    ensures k !in Keys(ps) ==> r == ps
  {
    if ps == [] then []
    else if ps[0].0 == k then RemoveKey(ps[1..], k)
    else [ps[0]] + RemoveKey(ps[1..], k)
  }

  /**
   * Setting a property: `obj[k] = v` on an object, `searchParams.set(k, v)`
   * on a URL. The first pair named `k` takes the new value in place and any
   * later pair of that name is removed; with no such pair, one is appended.
   */
  function Put<V>(ps: seq<(string, V)>, k: string, v: V): (r: seq<(string, V)>)
    ensures Keys(r) == Keys(ps) + {k}
    ensures Lookup(r, k) == Some(v)
    ensures forall j :: j != k ==> Lookup(r, j) == Lookup(ps, j)
    ensures UniqueKeys(ps) ==> UniqueKeys(r)
    ensures k !in Keys(ps) ==> r == ps + [(k, v)]
    ensures k in Keys(ps) && UniqueKeys(ps) ==>
              |r| == |ps| && forall i :: 0 <= i < |ps| ==> r[i].0 == ps[i].0
  {
    if ps == [] then [(k, v)]
    else if ps[0].0 == k then [(k, v)] + RemoveKey(ps[1..], k)
    else [ps[0]] + Put(ps[1..], k, v)
  }

  lemma {:induction false} KeysSnoc<V>(ps: seq<(string, V)>, p: (string, V))
    ensures Keys(ps + [p]) == Keys(ps) + {p.0}
  {
    if ps != [] {
      assert (ps + [p])[1..] == ps[1..] + [p];
      KeysSnoc(ps[1..], p);
    }
  }

  /** Looking up in a list extended at the end: the old pairs win, the new pair answers only for a new key. */
  lemma {:induction false} LookupSnoc<V>(ps: seq<(string, V)>, p: (string, V), k: string)
    ensures Lookup(ps + [p], k) ==
              if k in Keys(ps) then Lookup(ps, k) else if p.0 == k then Some(p.1) else None
  {
    if ps != [] {
      assert (ps + [p])[1..] == ps[1..] + [p];
      LookupSnoc(ps[1..], p, k);
    }
  }

  /** A list with unique keys, cut before its last pair, still has unique keys and lacks the last key. */
  lemma {:induction false} UniqueKeysSnoc<V>(ps: seq<(string, V)>, p: (string, V))
    requires UniqueKeys(ps + [p])
    ensures UniqueKeys(ps) && p.0 !in Keys(ps)
  {
    if ps != [] {
      assert (ps + [p])[1..] == ps[1..] + [p];
      KeysSnoc(ps[1..], p);
      UniqueKeysSnoc(ps[1..], p);
    }
  }

  /** `obj.key` for any value: only objects have own properties here, anything else reads undefined. */
  function Get(v: Value, key: string): (r: Value)
    ensures !v.Obj? ==> r == Undefined
    ensures v.Obj? && key !in Keys(v.fields) ==> r == Undefined
    ensures v.Obj? && key in Keys(v.fields) ==> Some(r) == Lookup(v.fields, key)
  {
    if v.Obj? then (match Lookup(v.fields, key) case Some(x) => x case None => Undefined)
    else Undefined
  }

  /** `v.length`: arrays and strings have one; anything else reads the property. */
  function Length(v: Value): Value
  {
    match v
    case Arr(items) => Num(|items|)
    case Str(s) => Num(|s|)
    case _ => Get(v, "length")
  }
}
