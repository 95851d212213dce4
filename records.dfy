/** JSON-like record values shared by the modules of this model.

    A record of the library system is a dictionary from string keys to JSON
    values. `Null` stands for Python's `None`, which is also what `dict.get`
    yields for a missing key. Python's truthiness (`if v:`) is `Truthy`.
 */
module Records {

  datatype Option<+T> = None | Some(value: T)

  datatype Value =
    | Null
    | Bool(b: bool)
    | Int(i: int)
    | Str(s: string)
    | Arr(items: seq<Value>)
    | Obj(fields: map<string, Value>)

  type Record = map<string, Value>

  /** Python truthiness of a JSON value: None, False, 0, "", [] and {} are falsy. */
  predicate Truthy(v: Value)
  {
    match v
    case Null => false
    case Bool(b) => b
    case Int(i) => i != 0
    case Str(s) => s != ""
    case Arr(items) => items != []
    case Obj(fields) => fields != map[]
  }

  /** `record.get(key)`: the stored value, or None when the key is missing. */
  function Get(r: Record, key: string): (v: Value)
    ensures key !in r ==> v == Null
    ensures key in r ==> v == r[key]
  {
    if key in r then r[key] else Null
  }

  /** `{k: v for k, v in r.items() if v}`: keep exactly the truthy entries. */
  function DropFalsy(r: Record): (d: Record)
    ensures forall k :: k in d <==> k in r && Truthy(r[k])
    ensures forall k :: k in d ==> d[k] == r[k]
  {
    map k | k in r && Truthy(r[k]) :: r[k]
  }

  /** The elements of `s` that satisfy `keep`, in their order: a search
      filter over a stored sequence. Each element occurs as often as in `s`
      when it is kept, and not at all otherwise. */
  function Filter<T(!new)>(s: seq<T>, keep: T -> bool): (r: seq<T>)
    ensures forall x :: multiset(r)[x] == if keep(x) then multiset(s)[x] else 0
    ensures forall x :: x in r <==> x in s && keep(x)
    ensures |r| <= |s|
  {
    if s == [] then []
    else
      assert s == [s[0]] + s[1..];
      assert multiset(s) == multiset([s[0]]) + multiset(s[1..]);
      (if keep(s[0]) then [s[0]] else []) + Filter(s[1..], keep)
  }

  /** Filtering keeps the whole sequence when every element is kept. */
  lemma {:induction false} FilterKeepsAll<T(!new)>(s: seq<T>, keep: T -> bool)
    requires forall x :: x in s ==> keep(x)
    ensures Filter(s, keep) == s
  {
    if s != [] {
      assert s[0] in s;
      assert forall x :: x in s[1..] ==> x in s;
      FilterKeepsAll(s[1..], keep);
      assert s == [s[0]] + s[1..];
    }
  }

  /** `f` applied to each element of `s`, in order. */
  function MapSeq<T, U>(s: seq<T>, f: T -> U): (r: seq<U>)
    ensures |r| == |s|
    ensures forall i :: 0 <= i < |s| ==> r[i] == f(s[i])
  {
    seq(|s|, i requires 0 <= i < |s| => f(s[i]))
  }

  /** No entry of the record holds a falsy value. */
  predicate AllTruthy(r: Record)
  {
    forall k :: k in r ==> Truthy(r[k])
  }
}
