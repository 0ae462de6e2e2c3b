/** JavaScript values as the style engine sees them, and the few generic
    operations on them (truthiness, property lookup, the `R.map` of Ramda). */
module JsValues {

  datatype Option<+T> = None | Some(value: T)

  /** A JS value. Objects are maps from property name to value (their key
      order is not observable in the style engine). A theme variable is the
      marked `resolve` closure of create-theme-variable.js, kept as the
      resolver it was created from and the arguments it captured. `Fn` is any
      other function, identified by reference. Numbers are integers. */
  datatype Value =
    | Undefined
    | Null
    | Bool(b: bool)
    | Num(n: int)
    | Str(s: string)
    | Arr(elems: seq<Value>)
    | Obj(fields: map<string, Value>)
    | Var(resolver: nat, args: seq<Value>)
    | Fn(ref: nat)

  /** JS truthiness (NaN is not modelled). */
  predicate Truthy(v: Value) {
    match v
    case Undefined => false
    case Null => false
    case Bool(b) => b
    case Num(n) => n != 0
    case Str(s) => s != ""
    case _ => true
  }

  /** `isNotNil` negated: null or undefined. */
  predicate IsNil(v: Value) {
    v.Undefined? || v.Null?
  }

  /** `R.is(Object, v)`: objects, arrays and functions. */
  predicate IsObject(v: Value) {
    v.Obj? || v.Arr? || v.Var? || v.Fn?
  }

  /** The character '0' + d. */
  function Digit(d: nat): char
    requires d < 10
  {
    (48 + d) as char
  }

  function NatToString(n: nat): (s: string)
    ensures |s| >= 1
    decreases n
  {
    if n < 10 then [Digit(n)] else NatToString(n / 10) + [Digit(n % 10)]
  }

  lemma {:induction false} NatToStringLength(n: nat)
    ensures n < 10 <==> |NatToString(n)| == 1
  {
    if n >= 10 {
      assert |NatToString(n)| == |NatToString(n / 10)| + 1;
    }
  }

  /** Distinct numbers have distinct decimal texts. */
  lemma {:induction false} NatToStringInjective(a: nat, b: nat)
    requires NatToString(a) == NatToString(b)
    ensures a == b
    decreases a
  {
    NatToStringLength(a);
    NatToStringLength(b);
    if a >= 10 {
      var s := NatToString(a);
      assert s[|s| - 1] == Digit(a % 10) == Digit(b % 10);
      assert s[..|s| - 1] == NatToString(a / 10) == NatToString(b / 10);
      NatToStringInjective(a / 10, b / 10);
    }
  }

  lemma NatToStringIsInjective()
    ensures forall a: nat, b: nat :: NatToString(a) == NatToString(b) ==> a == b
  {
    forall a: nat, b: nat | NatToString(a) == NatToString(b)
      ensures a == b
    {
      NatToStringInjective(a, b);
    }
  }

  /** The decimal text JS gives an integer when it is used as a property key. */
  function IntToString(n: int): string {
    if n < 0 then "-" + NatToString(-n) else NatToString(n)
  }

  /** The property name a value denotes when used as a key (`o[k]`).
      None for arrays and functions, whose text is not modelled. */
  function PropertyKey(k: Value): Option<string> {
    match k
    case Undefined => Some("undefined")
    case Null => Some("null")
    case Bool(b) => Some(if b then "true" else "false")
    case Num(n) => Some(IntToString(n))
    case Str(s) => Some(s)
    case Obj(_) => Some("[object Object]")
    case _ => None
  }

  /** The first index below `n`, from `i` on, whose decimal text is `s`. */
  function FindIndex(s: string, i: nat, n: nat): (r: Option<nat>)
    ensures r.Some? ==> i <= r.value < n && NatToString(r.value) == s
    ensures r.None? ==> forall j :: i <= j < n ==> NatToString(j) != s
    decreases n - i
  {
    if i >= n then None
    else if NatToString(i) == s then Some(i)
    else FindIndex(s, i + 1, n)
  }

  /** The position an array key denotes in an array of length `n`: a number
      in range, or the canonical decimal text of one (`xs["1"]` is `xs[1]`). */
  function ArrayIndex(k: Value, n: nat): (r: Option<nat>)
    ensures r.Some? ==> r.value < n
    ensures k.Num? ==> r == if 0 <= k.n < n then Some(k.n) else None
    ensures k.Str? && r.Some? ==> NatToString(r.value) == k.s
    ensures k.Str? && r.None? ==> forall i :: 0 <= i < n ==> NatToString(i) != k.s
    ensures !k.Num? && !k.Str? ==> r.None?
  {
    match k
    case Num(i) => if 0 <= i < n then Some(i) else None
    case Str(s) => FindIndex(s, 0, n)
    case _ => None
  }

  /** The decimal text of an index denotes that index. */
  lemma ArrayIndexOfText(i: nat, n: nat)
    requires i < n
    ensures ArrayIndex(Str(NatToString(i)), n) == Some(i)
  {
    var r := ArrayIndex(Str(NatToString(i)), n);
    if r.Some? {
      NatToStringInjective(r.value, i);
    }
  }

  /** `o[k]` as one step of `R.path`: looking into null or undefined gives
      undefined, an array is indexed by numbers and their decimal texts, a
      theme variable has its `variable` flag. Properties of primitives are
      not modelled. */
  function Get(o: Value, k: Value): (r: Value)
    ensures o.Obj? && k.Str? && k.s in o.fields ==> r == o.fields[k.s]
    ensures o.Obj? && k.Str? && k.s !in o.fields ==> r == Undefined
    ensures o.Arr? && ArrayIndex(k, |o.elems|).Some? ==> r == o.elems[ArrayIndex(k, |o.elems|).value]
    ensures o.Arr? && ArrayIndex(k, |o.elems|).None? ==> r == Undefined
    ensures IsNil(o) ==> r == Undefined
  {
    match o
    case Obj(m) =>
      var key := PropertyKey(k);
      if key.Some? && key.value in m then m[key.value] else Undefined
    case Arr(xs) =>
      var i := ArrayIndex(k, |xs|);
      if i.Some? then xs[i.value] else Undefined
    case Var(_, _) =>
      if k == Str("variable") then Bool(true) else Undefined
    case _ => Undefined
  }

  /** `R.map(f, o)` for a step `f` that may throw (None): an object keeps its
      keys, an array its positions; the first failing step fails the whole map.
      Any other value is returned unchanged (Ramda's treatment of those is not
      modelled). */
  function MapValues(f: Value -> Option<Value>, o: Value): (r: Option<Value>)
    ensures o.Obj? ==>
      (r.Some? <==> forall k :: k in o.fields ==> f(o.fields[k]).Some?)
    ensures o.Obj? && r.Some? ==>
      r.value.Obj? && r.value.fields.Keys == o.fields.Keys &&
      forall k :: k in o.fields ==> r.value.fields[k] == f(o.fields[k]).value
    ensures o.Arr? ==>
      (r.Some? <==> forall i :: 0 <= i < |o.elems| ==> f(o.elems[i]).Some?)
    ensures o.Arr? && r.Some? ==>
      r.value.Arr? && |r.value.elems| == |o.elems| &&
      forall i :: 0 <= i < |o.elems| ==> r.value.elems[i] == f(o.elems[i]).value
    ensures !o.Obj? && !o.Arr? ==> r == Some(o)
  {
    match o
    case Obj(m) =>
      if forall k :: k in m ==> f(m[k]).Some?
      then Some(Obj(map k | k in m :: f(m[k]).value))
      else None
    case Arr(xs) =>
      if forall i :: 0 <= i < |xs| ==> f(xs[i]).Some?
      then Some(Arr(seq(|xs|, i requires 0 <= i < |xs| => f(xs[i]).value)))
      else None
    case _ => Some(o)
  }

  /** The own enumerable properties of a value, keyed by the key as a value:
      an object's names, an array's indexes, a theme variable's `variable`
      flag. `R.values` lists exactly the values of this map. */
  function Entries(o: Value): (r: map<Value, Value>)
    ensures o.Obj? ==> forall k :: k in o.fields ==> Str(k) in r && r[Str(k)] == o.fields[k]
    ensures o.Obj? ==> forall k :: k in r ==> k.Str? && k.s in o.fields
    ensures o.Arr? ==> forall k :: k in r <==> k.Num? && 0 <= k.n < |o.elems|
    ensures o.Arr? ==> forall i :: 0 <= i < |o.elems| ==> r[Num(i)] == o.elems[i]
    ensures !IsObject(o) ==> r == map[]
  {
    match o
    case Obj(m) => map k | k in m :: Str(k) := m[k]
    case Arr(xs) => map i | 0 <= i < |xs| :: Num(i) := xs[i]
    case Var(_, _) => map[Str("variable") := Bool(true)]
    case _ => map[]
  }

  /** Strict lexicographic order on property names, by character code. */
  predicate Below(a: string, b: string)
    decreases |a|
  {
    |b| > 0 && (|a| == 0 || a[0] < b[0] || (a[0] == b[0] && Below(a[1..], b[1..])))
  }

  lemma {:induction false} BelowAsymmetric(a: string, b: string)
    requires Below(a, b)
    ensures !Below(b, a)
    decreases |a|
  {
    if |a| > 0 && a[0] == b[0] && Below(a[1..], b[1..]) {
      BelowAsymmetric(a[1..], b[1..]);
    }
  }

  lemma {:induction false} BelowTotal(a: string, b: string)
    requires a != b
    ensures Below(a, b) || Below(b, a)
    decreases |a|
  {
    if |a| > 0 && |b| > 0 && a[0] == b[0] {
      assert a == [a[0]] + a[1..] && b == [b[0]] + b[1..];
      BelowTotal(a[1..], b[1..]);
    }
  }

  lemma {:induction false} BelowTransitive(a: string, b: string, c: string)
    requires Below(a, b) && Below(b, c)
    ensures Below(a, c)
    decreases |a|
  {
    if |a| > 0 && a[0] == b[0] == c[0] {
      BelowTransitive(a[1..], b[1..], c[1..]);
    }
  }

  predicate IsLeast(m: string, s: set<string>) {
    m in s && forall k :: k in s && k != m ==> Below(m, k)
  }

  lemma {:induction false} HasLeast(s: set<string>)
    requires s != {}
    ensures exists m :: IsLeast(m, s)
    decreases s
  {
    var x :| x in s;
    if s == {x} {
      assert IsLeast(x, s);
    } else {
      HasLeast(s - {x});
      var m :| IsLeast(m, s - {x});
      if Below(x, m) {
        forall k | k in s && k != x
          ensures Below(x, k)
        {
          if k != m {
            BelowTransitive(x, m, k);
          }
        }
        assert IsLeast(x, s);
      } else {
        BelowTotal(x, m);
        assert IsLeast(m, s);
      }
    }
  }

  lemma LeastIsUnique(s: set<string>)
    ensures forall m, m' :: IsLeast(m, s) && IsLeast(m', s) ==> m == m'
  {
    forall m, m' | IsLeast(m, s) && IsLeast(m', s)
      ensures m == m'
    {
      if m != m' {
        BelowAsymmetric(m, m');
      }
    }
  }

  /** A set of property names listed in increasing order. */
  function SortedKeys(s: set<string>): (r: seq<string>)
    ensures |r| == |s|
    ensures forall k :: k in r <==> k in s
    decreases s
  {
    if s == {} then []
    else
      HasLeast(s);
      LeastIsUnique(s);
      var m :| IsLeast(m, s);
      [m] + SortedKeys(s - {m})
  }

  /** An object's field values, listed by name. */
  function FieldValues(m: map<string, Value>): (r: seq<Value>)
    ensures |r| == |m|
    ensures forall v :: v in r <==> exists k :: k in m && m[k] == v
  {
    var keys := SortedKeys(m.Keys);
    var r := seq(|keys|, i requires 0 <= i < |keys| => m[keys[i]]);
    assert forall k :: k in m ==> m[k] in r by {
      forall k | k in m
        ensures m[k] in r
      {
        var i :| 0 <= i < |keys| && keys[i] == k;
        assert r[i] == m[k];
      }
    }
    r
  }

  /** `R.values`: an array's elements, an object's field values, a theme
      variable's `true` flag, nothing for other values. */
  function Values(o: Value): (r: seq<Value>)
    ensures o.Arr? ==> r == o.elems
    ensures o.Obj? ==> |r| == |o.fields|
    ensures !IsObject(o) ==> r == []
  {
    match o
    case Arr(xs) => xs
    case Obj(m) => FieldValues(m)
    case Var(_, _) => [Bool(true)]
    case _ => []
  }

  /** `R.values` lists exactly the values of the own enumerable properties. */
  lemma ValuesAreEntries(o: Value)
    ensures forall v :: v in Values(o) <==> exists k :: k in Entries(o) && Entries(o)[k] == v
  {
    match o
    case Arr(xs) =>
      forall v | v in xs
        ensures exists k :: k in Entries(o) && Entries(o)[k] == v
      {
        var i :| 0 <= i < |xs| && xs[i] == v;
        assert Entries(o)[Num(i)] == v;
      }
    case Obj(m) =>
      forall v | v in Values(o)
        ensures exists k :: k in Entries(o) && Entries(o)[k] == v
      {
        var k :| k in m && m[k] == v;
        assert Entries(o)[Str(k)] == v;
      }
    case Var(_, _) =>
      assert Entries(o)[Str("variable")] == Bool(true);
    case _ =>
  }

  /** A JS object whose key order matters: the props object handed to a
      combined style creator. Entries are in insertion order, keys distinct. */
  type Entry = (string, Value)

  ghost predicate DistinctKeys(p: seq<Entry>) {
    forall i, j :: 0 <= i < j < |p| ==> p[i].0 != p[j].0
  }

  type Props = p: seq<Entry> | DistinctKeys(p)

  predicate NotBefore(p: seq<Entry>, name: string, i: int) {
    forall j :: 0 <= j < i && j < |p| ==> p[j].0 != name
  }

  /** `props[name]`: the value bound to `name`, or undefined. */
  function Lookup(p: seq<Entry>, name: string): (r: Value)
    ensures (forall i :: 0 <= i < |p| ==> p[i].0 != name) ==> r == Undefined
    ensures forall i :: 0 <= i < |p| && p[i].0 == name && NotBefore(p, name, i) ==> r == p[i].1
  {
    if p == [] then Undefined
    else if p[0].0 == name then p[0].1
    else Lookup(p[1..], name)
  }

  /** The props as a plain object. */
  function ToObject(p: seq<Entry>): map<string, Value> {
    if p == [] then map[] else ToObject(p[..|p| - 1])[p[|p| - 1].0 := p[|p| - 1].1]
  }
}
