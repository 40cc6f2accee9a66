/**
 * JSON-shaped JavaScript values as the modelled code sees them: records with
 * keys in insertion order, property reads, truthiness, `String(v)` and
 * `parseFloat(v)`. `undefined` is an absent value (`None`).
 */
module JsValues {
  import opened Wrappers
  import opened JsText

  /** A JSON value. Numbers are integers in this model. */
  datatype Value =
    | Null
    | Bool(b: bool)
    | Num(n: int)
    | Str(s: string)
    | Arr(items: seq<Value>)
    | Obj(fields: seq<(string, Value)>)

  /** An object's own properties, in insertion order. */
  type Record = seq<(string, Value)>

  /** `Object.keys(r)`. */
  function Keys(r: Record): (ks: seq<string>)
    ensures |ks| == |r|
  {
    if |r| == 0 then [] else [r[0].0] + Keys(r[1..])
  }

  /** `r[key]`: the value of the first property named `key`. */
  function Get(r: Record, key: string): (v: Option<Value>)
    ensures v.Some? <==> key in Keys(r)
  {
    if |r| == 0 then None
    else if r[0].0 == key then Some(r[0].1)
    else Get(r[1..], key)
  }

  /** `v?.key`: reading a property of something that is not an object gives `undefined`. */
  function Prop(v: Option<Value>, key: string): Option<Value> {
    if v.Some? && v.value.Obj? then Get(v.value.fields, key) else None
  }

  /** JavaScript truthiness (`undefined` is falsy). */
  predicate Truthy(v: Option<Value>) {
    match v
    case None => false
    case Some(Null) => false
    case Some(Bool(b)) => b
    case Some(Num(n)) => n != 0
    case Some(Str(s)) => s != ""
    case Some(Arr(_)) => true
    case Some(Obj(_)) => true
  }

  /** Neither `undefined` nor `null` (what `??` and `!= null` test). */
  predicate Present(v: Option<Value>) {
    v.Some? && !v.value.Null?
  }

  /** `x || d`. */
  function OrElse(x: Option<Value>, d: Value): (r: Value)
    ensures Truthy(x) ==> Some(r) == x
    ensures !Truthy(x) ==> r == d
  {
    if Truthy(x) then x.value else d
  }

  /** A property set to `x` as it comes out of `JSON.stringify`: a property
      whose value is `undefined` is dropped. */
  function OptField(key: string, x: Option<Value>): (r: Record)
    ensures x.Some? ==> r == [(key, x.value)]
    ensures x.None? <==> r == []
  {
    if x.Some? then [(key, x.value)] else []
  }

  /** An object literal as `JSON.stringify` writes it: its properties in
      order, those whose value is `undefined` dropped. */
  function Props(ps: seq<(string, Option<Value>)>): Record
    decreases |ps|
  {
    if |ps| == 0 then [] else OptField(ps[0].0, ps[0].1) + Props(ps[1..])
  }

  /** The first defined value the literal gives `key`. */
  function Lookup(ps: seq<(string, Option<Value>)>, key: string): Option<Value>
    decreases |ps|
  {
    if |ps| == 0 then None
    else if ps[0].0 == key && ps[0].1.Some? then ps[0].1
    else Lookup(ps[1..], key)
  }

  /** Reading a property of a serialised object literal finds the first
      defined value written for it. */
  lemma {:induction false} GetProps(ps: seq<(string, Option<Value>)>, key: string)
    ensures Get(Props(ps), key) == Lookup(ps, key)
    decreases |ps|
  {
    if |ps| > 0 {
      GetProps(ps[1..], key);
      GetOptField(ps[0].0, ps[0].1, Props(ps[1..]), key);
    }
  }

  /** The keys of an object literal are written once each. */
  predicate DistinctKeys(ps: seq<(string, Option<Value>)>) {
    forall i, j :: 0 <= i < j < |ps| ==> ps[i].0 != ps[j].0
  }

  /** Every property of a literal with distinct keys reads back as written. */
  lemma GetPropsAll(ps: seq<(string, Option<Value>)>)
    requires DistinctKeys(ps)
    ensures forall j :: 0 <= j < |ps| ==> Get(Props(ps), ps[j].0) == ps[j].1
  {
    forall j | 0 <= j < |ps| ensures Get(Props(ps), ps[j].0) == ps[j].1 {
      GetProps(ps, ps[j].0);
      LookupAt(ps, j, ps[j].0);
    }
  }

  /** A key written once, at position `j`, is looked up there. */
  lemma {:induction false} LookupAt(ps: seq<(string, Option<Value>)>, j: nat, key: string)
    requires j < |ps| && ps[j].0 == key
    requires forall i :: 0 <= i < |ps| && i != j ==> ps[i].0 != key
    ensures Lookup(ps, key) == ps[j].1
    decreases |ps|
  {
    if j > 0 {
      LookupAt(ps[1..], j - 1, key);
    } else {
      LookupAbsent(ps[1..], key);
    }
  }

  /** A key the literal never writes is not found. */
  lemma {:induction false} LookupAbsent(ps: seq<(string, Option<Value>)>, key: string)
    requires forall i :: 0 <= i < |ps| ==> ps[i].0 != key
    ensures Lookup(ps, key).None?
    decreases |ps|
  {
    if |ps| > 0 {
      LookupAbsent(ps[1..], key);
    }
  }

  /** Only keys the literal writes are found. */
  lemma {:induction false} LookupNamed(ps: seq<(string, Option<Value>)>, key: string)
    requires Lookup(ps, key).Some?
    ensures exists j :: 0 <= j < |ps| && ps[j].0 == key
    decreases |ps|
  {
    if ps[0].0 != key || ps[0].1.None? {
      LookupNamed(ps[1..], key);
      var j :| 0 <= j < |ps| - 1 && ps[1..][j].0 == key;
      assert ps[j + 1].0 == key;
    }
  }

  /** An object literal has no property but those it writes. */
  lemma KeysOfProps(ps: seq<(string, Option<Value>)>)
    ensures forall k :: k in Keys(Props(ps)) ==> exists j :: 0 <= j < |ps| && ps[j].0 == k
  {
    forall k | k in Keys(Props(ps))
      ensures exists j :: 0 <= j < |ps| && ps[j].0 == k
    {
      GetProps(ps, k);
      LookupNamed(ps, k);
    }
  }

  /** `r[key]` for the property at position `i` when no earlier one has the key. */
  lemma {:induction false} GetAt(r: Record, i: nat, key: string)
    requires i < |r| && r[i].0 == key
    requires forall j :: 0 <= j < i ==> r[j].0 != key
    ensures Get(r, key) == Some(r[i].1)
    decreases i
  {
    if i > 0 {
      GetAt(r[1..], i - 1, key);
    }
  }

  /** A record none of whose properties is `key` has no `r[key]`. */
  lemma {:induction false} GetAbsent(r: Record, key: string)
    requires forall j :: 0 <= j < |r| ==> r[j].0 != key
    ensures Get(r, key).None?
    decreases |r|
  {
    if |r| > 0 {
      GetAbsent(r[1..], key);
    }
  }

  /** A property is read from the first part of a record that has it. */
  lemma {:induction false} GetAppend(a: Record, b: Record, key: string)
    ensures Get(a + b, key) == if Get(a, key).Some? then Get(a, key) else Get(b, key)
    decreases |a|
  {
    if |a| == 0 {
      assert a + b == b;
    } else {
      assert (a + b)[0] == a[0] && (a + b)[1..] == a[1..] + b;
      GetAppend(a[1..], b, key);
    }
  }

  /** Reading past an optional property. */
  lemma GetOptField(key: string, x: Option<Value>, rest: Record, other: string)
    ensures Get(OptField(key, x) + rest, other) == if other == key && x.Some? then x else Get(rest, other)
  {
    if x.None? {
      assert OptField(key, x) + rest == rest;
    } else {
      assert (OptField(key, x) + rest)[0] == (key, x.value);
      assert (OptField(key, x) + rest)[1..] == rest;
    }
  }

  /** `String(v)`; an array joins its elements with commas, `null` elements as "". */
  function Stringify(v: Value): string {
    match v
    case Null => "null"
    case Bool(b) => if b then "true" else "false"
    case Num(n) => IntToString(n)
    case Str(s) => s
    case Arr(items) =>
      Join(seq(|items|, i requires 0 <= i < |items| => if items[i].Null? then "" else Stringify(items[i])), ",")
    case Obj(_) => "[object Object]"
  }

  /** `String(v)` where `v` may be `undefined`. */
  function StringOf(v: Option<Value>): string {
    if v.None? then "undefined" else Stringify(v.value)
  }

  /** `parseInt(v, 10)`: the value is converted to a string and its leading
      integer is read; `None` is NaN. */
  function ParseIntOf(v: Option<Value>): Option<int> {
    ParseIntPrefix(StringOf(v))
  }

  /** `parseFloat(v)` on integer literals: the value is converted to a string
      and its leading integer is read; `None` is NaN. */
  function ParseFloatOf(v: Option<Value>): Option<int> {
    ParseIntPrefix(StringOf(v))
  }

  /** A number survives the string round trip of `parseFloat`. */
  lemma ParseFloatOfNumber(n: int)
    ensures ParseFloatOf(Some(Num(n))) == Some(n)
  {
    ParseIntOfIntToString(n);
  }
}
