/** Decoded JSON values as Python sees them after `json.loads`, with Python's
    truthiness and subscription. */
module Json {
  import opened Wrappers

  datatype Json =
    | Null
    | Bool(b: bool)
    | Int(i: int)
    | Real(r: real)
    | Str(s: string)
    | Array(items: seq<Json>)
    | Object(fields: map<string, Json>)

  /** `bool(v)` */
  predicate Truthy(v: Json) {
    match v
    case Null => false
    case Bool(b) => b
    case Int(i) => i != 0
    case Real(r) => r != 0.0
    case Str(s) => s != ""
    case Array(items) => |items| > 0
    case Object(fields) => |fields| > 0
  }

  /** `v[key]` for a string key: a KeyError when a dict lacks it, a TypeError
      for values that cannot be subscripted by a string. */
  function Get(v: Json, key: string): (r: Result<Json, Exc>)
    ensures r.Ok? <==> v.Object? && key in v.fields
    ensures r.Ok? ==> r.value == v.fields[key]
  {
    match v
    case Object(fields) => if key in fields then Ok(fields[key]) else Err(KeyError(key))
    case _ => Err(TypeError("value is not subscriptable by a string"))
  }

  /** `v[0]`: the first element of a list or the first character of a string. */
  function First(v: Json): Result<Json, Exc> {
    match v
    case Array(items) => if |items| > 0 then Ok(items[0]) else Err(IndexError)
    case Str(s) => if |s| > 0 then Ok(Str(s[..1])) else Err(IndexError)
    case Object(fields) => Err(KeyError("0"))
    case _ => Err(TypeError("value is not subscriptable"))
  }

  /** What `for x in v` visits: list elements, string characters, dict
      keys. A decoded object keeps no key order here, so its keys come in
      code-point order. */
  function Elements(v: Json): (r: Result<seq<Json>, Exc>)
    ensures v.Array? ==> r == Ok(v.items)
    ensures v.Str? ==> r.Ok? && |r.value| == |v.s| && forall k :: 0 <= k < |v.s| ==> r.value[k] == Str([v.s[k]])
    ensures v.Object? ==> r.Ok? && |r.value| == |v.fields| && forall x :: x in r.value <==> x.Str? && x.s in v.fields
    ensures r.Err? <==> !(v.Array? || v.Str? || v.Object?)
  {
    match v
    case Array(items) => Ok(items)
    case Str(s) => Ok(seq(|s|, k requires 0 <= k < |s| => Str([s[k]])))
    case Object(fields) => Ok(StrsOf(Sorted(fields.Keys)))
    case _ => Err(TypeError("value is not iterable"))
  }

  /** Each string as a JSON string. */
  function StrsOf(ks: seq<string>): (r: seq<Json>)
    ensures |r| == |ks| && forall k :: 0 <= k < |ks| ==> r[k] == Str(ks[k])
    ensures forall x :: x in r <==> x.Str? && x.s in ks
  {
    seq(|ks|, k requires 0 <= k < |ks| => Str(ks[k]))
  }

  /** Code-point order on strings: the order Python's `<=` gives them. */
  predicate StrLe(a: string, b: string) decreases |a| {
    |a| == 0 || (|b| > 0 && (a[0] < b[0] || (a[0] == b[0] && StrLe(a[1..], b[1..]))))
  }

  lemma {:induction false} StrLeTotal(a: string, b: string)
    ensures StrLe(a, b) || StrLe(b, a)
    decreases |a|
  {
    if |a| > 0 && |b| > 0 && a[0] == b[0] {
      StrLeTotal(a[1..], b[1..]);
    }
  }

  lemma {:induction false} StrLeAntisymmetric(a: string, b: string)
    requires StrLe(a, b) && StrLe(b, a)
    ensures a == b
    decreases |a|
  {
    if |a| > 0 {
      StrLeAntisymmetric(a[1..], b[1..]);
      assert a == [a[0]] + a[1..] && b == [b[0]] + b[1..];
    }
  }

  lemma {:induction false} StrLeTransitive(a: string, b: string, c: string)
    requires StrLe(a, b) && StrLe(b, c)
    ensures StrLe(a, c)
    decreases |a|
  {
    if |a| > 0 && a[0] == b[0] && b[0] == c[0] {
      StrLeTransitive(a[1..], b[1..], c[1..]);
    }
  }

  lemma {:induction false} HasLeast(s: set<string>)
    requires s != {}
    ensures exists k :: k in s && forall j :: j in s ==> StrLe(k, j)
    decreases |s|
  {
    var x :| x in s;
    if s == {x} {
      assert forall j :: j in s ==> j == x;
      StrLeTotal(x, x);
      assert x in s && forall j :: j in s ==> StrLe(x, j);
    } else {
      var rest := s - {x};
      HasLeast(rest);
      var m :| m in rest && forall j :: j in rest ==> StrLe(m, j);
      StrLeTotal(x, m);
      if StrLe(x, m) {
        forall j | j in s ensures StrLe(x, j) {
          if j == x { StrLeTotal(x, x); } else { StrLeTransitive(x, m, j); }
        }
        assert x in s;
      } else {
        forall j | j in s ensures StrLe(m, j) {
          if j == x { StrLeTotal(x, m); }
        }
        assert m in s;
      }
    }
  }

  /** The least of a non-empty set of strings. */
  function Least(s: set<string>): (k: string)
    requires s != {}
    ensures k in s && forall j :: j in s ==> StrLe(k, j)
  {
    HasLeast(s);
    assert forall a, b :: a in s && b in s && StrLe(a, b) && StrLe(b, a) ==> a == b by {
      forall a, b | a in s && b in s && StrLe(a, b) && StrLe(b, a) ensures a == b {
        StrLeAntisymmetric(a, b);
      }
    }
    var k :| k in s && forall j :: j in s ==> StrLe(k, j);
    k
  }

  /** The strings of a set in increasing order. */
  function Sorted(s: set<string>): (ks: seq<string>)
    ensures |ks| == |s|
    ensures forall k :: k in ks <==> k in s
    decreases |s|
  {
    if s == {} then [] else [Least(s)] + Sorted(s - {Least(s)})
  }
}
