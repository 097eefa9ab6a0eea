/** Values exchanged between the HTTP layer and the document store, and the
    small pieces of Python semantics the handlers and the manager rely on. */
module Values {

  datatype Option<+T> = None | Some(value: T)

  datatype Result<+T, +E> = Success(value: T) | Failure(error: E)

  /** A parsed JSON value, plus the timestamp type the store assigns on write
      (what `SERVER_TIMESTAMP` becomes once the document is written).
      `Timestamp` occurs only in stored documents: a request body, being
      parsed JSON, never holds one. */
  datatype Value =
    | Null
    | Bool(b: bool)
    | Int(i: int)
    | Str(s: string)
    | Array(items: seq<Value>)
    | Object(fields: map<string, Value>)
    | Timestamp(t: int)

  /** `v[k]`: None where Python raises, i.e. when `v` is not a dict or lacks `k`. */
  function Field(v: Value, k: string): Option<Value>
  {
    if v.Object? && k in v.fields then Some(v.fields[k]) else None
  }

  /** `d.get(k, default)` on a dict. */
  function Get(d: map<string, Value>, k: string, default: Value): Value
  {
    if k in d then d[k] else default
  }

  /** Python truthiness of a JSON value (`if not v`). */
  predicate Truthy(v: Value)
  {
    match v
    case Null => false
    case Bool(b) => b
    case Int(i) => i != 0
    case Str(s) => s != ""
    case Array(items) => items != []
    case Object(fields) => fields != map[]
    case Timestamp(_) => true
  }

  /** The Python type name of a value, as it appears in an AttributeError. */
  function TypeName(v: Value): string
  {
    match v
    case Null => "NoneType"
    case Bool(_) => "bool"
    case Int(_) => "int"
    case Str(_) => "str"
    case Array(_) => "list"
    case Object(_) => "dict"
    case Timestamp(_) => "DatetimeWithNanoseconds"
  }

  /** A list comprehension `[x for x in s if keep(x)]` whose condition may
      raise: `keep` yields None where Python raises, and then the whole
      comprehension raises (None). Otherwise the result keeps exactly the
      elements whose condition holds. */
  function Filter<T(==)>(s: seq<T>, keep: T -> Option<bool>): (r: Option<seq<T>>)
    ensures r.Some? <==> forall i :: 0 <= i < |s| ==> keep(s[i]).Some?
    ensures r.Some? ==> forall x :: x in r.value ==> x in s && keep(x) == Some(true)
    ensures r.Some? ==> forall i :: 0 <= i < |s| && keep(s[i]) == Some(true) ==> s[i] in r.value
    ensures r.Some? ==> |r.value| <= |s|
  {
    if s == [] then Some([])
    else
      var head := keep(s[0]);
      var tail := Filter(s[1..], keep);
      if head.None? || tail.None? then None
      else if head.value then Some([s[0]] + tail.value)
      else tail
  }

  /** The comprehension works element by element in order: filtering a
      concatenation concatenates the filtered parts. */
  lemma {:induction false} FilterAppend<T>(a: seq<T>, b: seq<T>, keep: T -> Option<bool>)
    requires Filter(a, keep).Some? && Filter(b, keep).Some?
    ensures Filter(a + b, keep) == Some(Filter(a, keep).value + Filter(b, keep).value)
  {
    if a == [] {
      assert a + b == b;
      assert Filter(a, keep).value + Filter(b, keep).value == Filter(b, keep).value;
    } else {
      assert (a + b)[0] == a[0];
      assert (a + b)[1..] == a[1..] + b;
      FilterAppend(a[1..], b, keep);
      var rest := Filter(a[1..], keep).value;
      if keep(a[0]) == Some(true) {
        assert [a[0]] + (rest + Filter(b, keep).value) == ([a[0]] + rest) + Filter(b, keep).value;
      }
    }
  }

  /** A one-element list keeps its element exactly when the condition holds. */
  lemma FilterSingle<T>(x: T, keep: T -> Option<bool>)
    requires keep(x).Some?
    ensures Filter([x], keep) == Some(if keep(x).value then [x] else [])
  {
    assert [x][1..] == [];
    assert [x] + [] == [x];
  }

  /** An element whose condition is false is dropped, so the result is
      strictly shorter. */
  lemma {:induction false} FilterDrops<T>(s: seq<T>, keep: T -> Option<bool>, i: nat)
    requires Filter(s, keep).Some? && i < |s| && keep(s[i]) == Some(false)
    ensures |Filter(s, keep).value| < |s|
  {
    if i > 0 {
      FilterDrops(s[1..], keep, i - 1);
    }
  }
}
