/**
 * The slice of JavaScript's value model that the ORM's code relies on:
 * property reads that may throw, `for..in` enumeration (keys in order, each
 * paired with the value read back through that key), property-by-property
 * copying onto an object, and the string conversion a template literal
 * applies to an interpolated value.
 */
module JsValues {

  import opened Text

  datatype Option<T> = None | Some(value: T) {
    function GetOr(default: T): T {
      match this
      case Some(v) => v
      case None => default
    }
  }

  /** A JavaScript value. Numbers are integers; an object lists its own
      enumerable properties in `for..in` order. */
  datatype Value =
    | Undefined
    | Null
    | Bool(b: bool)
    | Num(n: int)
    | Str(s: string)
    | Arr(items: seq<Value>)
    | Obj(props: seq<(string, Value)>)

  datatype ErrorKind = TypeError | ReferenceError

  /** How evaluating an expression ends: with a value or with a thrown error. */
  datatype Completion<T> = Normal(value: T) | Throw(error: ErrorKind)

  /** The value bound to `key` (the first binding), or `undefined`. */
  function Lookup(ps: seq<(string, Value)>, key: string): (v: Value)
    ensures v != Undefined ==> exists i :: 0 <= i < |ps| && ps[i] == (key, v)
  {
    if |ps| == 0 then Undefined
    else if ps[0].0 == key then ps[0].1
    else
      var v := Lookup(ps[1..], key);
      assert v != Undefined ==> exists i :: 0 <= i < |ps[1..]| && ps[1..][i] == (key, v);
      assert v != Undefined ==> exists i :: 1 <= i < |ps| && ps[i] == (key, v);
      v
  }

  /** The property names the ORM reads off a query response; no JavaScript
      value carries one of them as a built-in property. */
  predicate ResponseKey(key: string) {
    key == "result" || key == "done" || key == "records"
  }

  /** The property read `v.key`: it throws a TypeError on `null` and
      `undefined`, and yields `undefined` for a name the value lacks. */
  function Member(v: Value, key: string): (r: Completion<Value>)
    requires ResponseKey(key)
    ensures r.Throw? <==> v == Undefined || v == Null
    ensures r.Throw? ==> r.error == TypeError
    ensures r.Normal? && r.value != Undefined ==> v.Obj?
  {
    match v
    case Undefined => Throw(TypeError)
    case Null => Throw(TypeError)
    case Obj(ps) => Normal(Lookup(ps, key))
    case _ => Normal(Undefined)
  }

  function Digit(d: nat): (c: char)
    requires d < 10
  {
    "0123456789"[d]
  }

  /** The decimal numeral of `n`, as `String(n)` writes it. */
  function DecimalText(n: nat): (s: string)
    ensures |s| > 0
    ensures forall i :: 0 <= i < |s| ==> '0' <= s[i] <= '9'
  {
    if n < 10 then [Digit(n)] else DecimalText(n / 10) + [Digit(n % 10)]
  }

  /** The text a template literal inserts for `${v}`. An array prints its
      elements joined by "," with `null` and `undefined` printed as empty. */
  function TemplateText(v: Value): (s: string)
    decreases v
  {
    match v
    case Undefined => "undefined"
    case Null => "null"
    case Bool(b) => if b then "true" else "false"
    case Num(n) => if n < 0 then "-" + DecimalText(-n) else DecimalText(n)
    case Str(s) => s
    case Obj(_) => "[object Object]"
    case Arr(xs) =>
      Join(seq(|xs|, i requires 0 <= i < |xs| =>
        if xs[i] == Null || xs[i] == Undefined then "" else TemplateText(xs[i])), ",")
  }

  /** A number's text is a sign and digits, so it holds no space. */
  lemma NumberTextHasNoSpace(n: int)
    ensures ' ' !in TemplateText(Num(n))
  {
  }

  /** What `for (let k in v) ... v[k] ...` visits: each enumerated key with
      the value read through it. Arrays and strings enumerate their indices;
      `null`, `undefined`, booleans and numbers enumerate nothing. */
  function ForInEntries(v: Value): seq<(string, Value)> {
    match v
    case Obj(ps) => seq(|ps|, i requires 0 <= i < |ps| => (ps[i].0, Lookup(ps, ps[i].0)))
    case Arr(xs) => seq(|xs|, i requires 0 <= i < |xs| => (DecimalText(i), xs[i]))
    case Str(s) => seq(|s|, i requires 0 <= i < |s| => (DecimalText(i), Str([s[i]])))
    case _ => []
  }

  /** The values a `for..in` loop over `v` reads, in visiting order. */
  function ForInValues(v: Value): seq<Value> {
    var es := ForInEntries(v);
    seq(|es|, i requires 0 <= i < |es| => es[i].1)
  }

  /** A `for..in` loop over an array reads its items in order. */
  lemma ForInValuesOfArray(xs: seq<Value>)
    ensures ForInValues(Arr(xs)) == xs
  {
  }

  /** An array of objects with the given property lists. */
  function ObjArray(rows: seq<seq<(string, Value)>>): seq<Value> {
    seq(|rows|, i requires 0 <= i < |rows| => Obj(rows[i]))
  }

  /** The property map after `target[k] = e` for each entry `(k, e)` in turn. */
  function CopyEntries(target: map<string, Value>, es: seq<(string, Value)>): map<string, Value>
    decreases |es|
  {
    if |es| == 0 then target else CopyEntries(target[es[0].0 := es[0].1], es[1..])
  }

  /** The keys of a property list, or of a list of `for..in` entries. */
  function KeySet(es: seq<(string, Value)>): set<string> {
    set e | e in es :: e.0
  }

  /** The properties a row contributes once copied onto an empty object. */
  function Copied(row: Value): map<string, Value> {
    CopyEntries(map[], ForInEntries(row))
  }

  /** Copying entries that agree with `vals` gives every copied key its
      value from `vals` and leaves every other key of the target alone. */
  lemma {:induction false} CopyEntriesAgree(target: map<string, Value>, es: seq<(string, Value)>, vals: map<string, Value>)
    requires forall e :: e in es ==> e.0 in vals && vals[e.0] == e.1
    ensures CopyEntries(target, es).Keys == target.Keys + KeySet(es)
    ensures forall k :: k in CopyEntries(target, es) ==>
      CopyEntries(target, es)[k] == if k in KeySet(es) then vals[k] else target[k]
    decreases |es|
  {
    if |es| > 0 {
      var t := target[es[0].0 := es[0].1];
      CopyEntriesAgree(t, es[1..], vals);
      assert KeySet(es) == {es[0].0} + KeySet(es[1..]) by {
        assert forall e :: e in es <==> e == es[0] || e in es[1..];
      }
    }
  }

  /** `for..in` over an object visits exactly its own keys, and reading
      through a key gives the first binding of that key. */
  lemma ForInObjectEntries(ps: seq<(string, Value)>)
    ensures KeySet(ForInEntries(Obj(ps))) == KeySet(ps)
    ensures forall e :: e in ForInEntries(Obj(ps)) ==> e.1 == Lookup(ps, e.0)
  {
  }

  /** Copying a row object puts every one of its keys on the target with
      the value it has in the row, and no other key. */
  lemma CopiedObject(ps: seq<(string, Value)>)
    ensures Copied(Obj(ps)).Keys == KeySet(ps)
    ensures forall k :: k in KeySet(ps) ==> Copied(Obj(ps))[k] == Lookup(ps, k)
  {
    var es := ForInEntries(Obj(ps));
    var vals := map k | k in KeySet(ps) :: Lookup(ps, k);
    ForInObjectEntries(ps);
    CopyEntriesAgree(map[], es, vals);
  }
}
