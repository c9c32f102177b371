/** The untyped `data` blob of a stored template, and the few JavaScript
    operations the template code applies to it: property access, `??`, `||`,
    truthiness and `Object.keys` followed by indexing. */
module Json {

  /** A JavaScript value as it can occur in a parsed JSON object; `Undefined`
      is what reading an absent property yields. Numbers are integers here. */
  datatype Value =
    | Undefined
    | Null
    | Bool(b: bool)
    | Num(n: int)
    | Str(s: string)
    | Arr(items: seq<Value>)
    | Obj(fields: map<string, Value>)

  /** The error `Object.keys` raises when handed `null` or `undefined`. */
  datatype TypeError = CannotConvertToObject(culprit: Value)

  datatype Result<T> = Success(value: T) | Failure(error: TypeError)

  /** JavaScript truthiness: `undefined`, `null`, `false`, `0` and `""` are
      falsy; every object and array, even an empty one, is truthy. */
  predicate Truthy(v: Value)
    ensures Nullish(v) ==> !Truthy(v)
    ensures v.Obj? || v.Arr? ==> Truthy(v)
    ensures v.Str? ==> (Truthy(v) <==> |v.s| > 0)
  {
    match v
    case Undefined => false
    case Null => false
    case Bool(b) => b
    case Num(n) => n != 0
    case Str(s) => s != ""
    case _ => true
  }

  /** The values `??` replaces. */
  predicate Nullish(v: Value) {
    v.Undefined? || v.Null?
  }

  /** `obj.key` on an object: the stored value, or `undefined` when absent. */
  function Get(obj: map<string, Value>, key: string): Value {
    if key in obj then obj[key] else Undefined
  }

  /** `v ?? fallback`: a fallback that is neither null nor undefined makes
      the result neither, and a value that is neither is kept. */
  function Coalesce(v: Value, fallback: Value): (r: Value)
    ensures !Nullish(v) ==> r == v
    ensures !Nullish(fallback) ==> !Nullish(r)
    ensures r == v || r == fallback
  {
    if Nullish(v) then fallback else v
  }

  /** `v || fallback`: a truthy value is kept, and a truthy fallback makes
      the result truthy. */
  function Or(v: Value, fallback: Value): (r: Value)
    ensures Truthy(v) ==> r == v
    ensures Truthy(fallback) ==> Truthy(r)
    ensures r == v || r == fallback
  {
    if Truthy(v) then v else fallback
  }

  function Digit(d: nat): char
    requires d < 10
  {
    "0123456789"[d]
  }

  /** The property name JavaScript uses for array index `n`. */
  function Decimal(n: nat): (r: string)
    ensures |r| >= 1
    ensures n < 10 <==> |r| == 1
  {
    if n < 10 then [Digit(n)] else Decimal(n / 10) + [Digit(n % 10)]
  }

  /** Distinct indices have distinct property names. */
  lemma {:induction false} DecimalInjective(a: nat, b: nat)
    requires Decimal(a) == Decimal(b)
    ensures a == b
  {
    if a < 10 || b < 10 {
      assert |Decimal(a)| == 1 && |Decimal(b)| == 1;
    } else {
      var da, db := Decimal(a), Decimal(b);
      assert Decimal(a / 10) == da[..|da| - 1] == db[..|db| - 1] == Decimal(b / 10);
      DecimalInjective(a / 10, b / 10);
      assert Digit(a % 10) == da[|da| - 1] == db[|db| - 1] == Digit(b % 10);
      assert a % 10 == b % 10;
    }
  }

  /** `k` names one of the first `n` array indices. */
  ghost predicate IsIndexName(k: string, n: nat) {
    exists i: nat :: i < n && Decimal(i) == k
  }

  /** The properties of an array-like value, keyed by decimal index. */
  function Indexed(items: seq<Value>): map<string, Value>
  {
    if items == [] then map[]
    else Indexed(items[..|items| - 1])[Decimal(|items| - 1) := items[|items| - 1]]
  }

  /** Exactly the index names are keys of `Indexed(items)`. */
  lemma {:induction false} IndexedKeys(items: seq<Value>, k: string)
    ensures k in Indexed(items) <==> IsIndexName(k, |items|)
  {
    if items != [] {
      var n := |items| - 1;
      IndexedKeys(items[..n], k);
      if k == Decimal(n) {
        assert n < |items| && Decimal(n) == k;
      } else if k in Indexed(items) {
        var i: nat :| i < n && Decimal(i) == k;
      }
      if k != Decimal(n) && IsIndexName(k, |items|) {
        var i: nat :| i < |items| && Decimal(i) == k;
        assert i < |items[..n]| && Decimal(i) == k;
        assert k in Indexed(items[..n]);
      }
    }
  }

  /** Index `i` of `items` holds `items[i]`. */
  lemma {:induction false} IndexedAt(items: seq<Value>, i: nat)
    requires i < |items|
    ensures Decimal(i) in Indexed(items) && Indexed(items)[Decimal(i)] == items[i]
  {
    var n := |items| - 1;
    if i < n {
      IndexedAt(items[..n], i);
      if Decimal(i) == Decimal(n) { DecimalInjective(i, n); }
    }
  }

  /** Both facts about `Indexed(items)` for every key and index. */
  lemma IndexedEntries(items: seq<Value>)
    ensures forall k :: k in Indexed(items) <==> IsIndexName(k, |items|)
    ensures forall i: nat | i < |items| :: Decimal(i) in Indexed(items) && Indexed(items)[Decimal(i)] == items[i]
  {
    forall k ensures k in Indexed(items) <==> IsIndexName(k, |items|) {
      IndexedKeys(items, k);
    }
    forall i: nat | i < |items| { IndexedAt(items, i); }
  }

  /** The characters of a string, each as a one-character string. */
  function Chars(s: string): seq<Value> {
    seq(|s|, i requires 0 <= i < |s| => Str([s[i]]))
  }

  /** `Object.keys(v)` paired with `v[key]` for each key: the own enumerable
      properties of `v`. Fails exactly on `null` and `undefined`; an array or
      a string has exactly its decimal index names as keys, bound to its
      elements or to its one-character substrings. */
  function OwnEntries(v: Value): (r: Result<map<string, Value>>)
    ensures r.Failure? <==> Nullish(v)
    ensures r.Failure? ==> r.error == CannotConvertToObject(v)
    ensures v.Obj? ==> r == Success(v.fields)
    ensures v.Bool? || v.Num? ==> r == Success(map[])
    ensures v.Arr? ==> forall k :: k in r.value <==> IsIndexName(k, |v.items|)
    ensures v.Arr? ==> forall i: nat | i < |v.items| :: Decimal(i) in r.value && r.value[Decimal(i)] == v.items[i]
    ensures v.Str? ==> forall k :: k in r.value <==> IsIndexName(k, |v.s|)
    ensures v.Str? ==> forall i: nat | i < |v.s| :: Decimal(i) in r.value && r.value[Decimal(i)] == Str([v.s[i]])
  {
    match v
    case Undefined => Failure(CannotConvertToObject(v))
    case Null => Failure(CannotConvertToObject(v))
    case Bool(_) => Success(map[])
    case Num(_) => Success(map[])
    case Str(s) =>
      IndexedEntries(Chars(s));
      Success(Indexed(Chars(s)))
    case Arr(items) =>
      IndexedEntries(items);
      Success(Indexed(items))
    case Obj(fields) => Success(fields)
  }
}
