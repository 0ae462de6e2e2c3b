/** src/utils/flatten-stylesheets.js: merge an ordered list of style objects
    into one, turning every conflict into a React Native style array. */
module FlattenStyleSheets {
  import opened JsValues

  /** `R.flatten`: nested arrays are spliced in, depth first, in order. */
  function DeepFlatten(xs: seq<Value>): (r: seq<Value>)
    ensures forall i :: 0 <= i < |r| ==> !r[i].Arr?
    decreases xs
  {
    if xs == [] then []
    else
      var head := if xs[0].Arr? then DeepFlatten(xs[0].elems) else [xs[0]];
      head + DeepFlatten(xs[1..])
  }

  /** Drop the falsy entries (what `R.filter(identity)` is meant to do). */
  function Compact(xs: seq<Value>): (r: seq<Value>)
    ensures forall i :: 0 <= i < |r| ==> Truthy(r[i])
    ensures forall x :: x in r <==> x in xs && Truthy(x)
    ensures |r| <= |xs|
    ensures (forall i :: 0 <= i < |xs| ==> Truthy(xs[i])) ==> r == xs
    decreases |xs|
  {
    if xs == [] then []
    else if Truthy(xs[0]) then [xs[0]] + Compact(xs[1..])
    else Compact(xs[1..])
  }

  /** A list's elements under their index texts, as `for ... in` lists them. */
  function IndexedProps(xs: seq<Value>): (r: map<string, Value>)
    ensures forall i :: 0 <= i < |xs| ==> NatToString(i) in r && r[NatToString(i)] == xs[i]
    ensures forall k :: k in r ==> exists i :: 0 <= i < |xs| && k == NatToString(i)
  {
    NatToStringIsInjective();
    map i | 0 <= i < |xs| :: NatToString(i) := xs[i]
  }

  /** The own enumerable properties `R.mergeWith` copies from a source: an
      object's fields, a theme variable's `variable` flag, a string's or an
      array's index texts, nothing for numbers, booleans and other functions. */
  function OwnProps(v: Value): (r: map<string, Value>)
    ensures v.Str? ==> forall i :: 0 <= i < |v.s| ==> NatToString(i) in r && r[NatToString(i)] == Str([v.s[i]])
    ensures v.Str? ==> forall k :: k in r ==> exists i :: 0 <= i < |v.s| && k == NatToString(i)
    ensures v.Arr? ==> forall i :: 0 <= i < |v.elems| ==> NatToString(i) in r && r[NatToString(i)] == v.elems[i]
  {
    match v
    case Obj(m) => m
    case Var(_, _) => map["variable" := Bool(true)]
    case Str(s) => IndexedProps(seq(|s|, i requires 0 <= i < |s| => Str([s[i]])))
    case Arr(xs) => IndexedProps(xs)
    case _ => map[]
  }

  ghost predicate NoDuplicates<T>(xs: seq<T>) {
    forall i, j :: 0 <= i < j < |xs| ==> xs[i] != xs[j]
  }

  /** `R.uniq`: the first occurrence of every element, in order. */
  function Uniq(xs: seq<Value>): (r: seq<Value>)
    ensures NoDuplicates(r)
    ensures forall x :: x in r <==> x in xs
    ensures |r| <= |xs|
  {
    if xs == [] then []
    else
      var init := Uniq(xs[..|xs| - 1]);
      var last := xs[|xs| - 1];
      assert forall x :: x in xs <==> x in xs[..|xs| - 1] || x == last;
      if last in init then init else init + [last]
  }

  lemma {:induction false} UniqOfDistinct(xs: seq<Value>)
    ensures NoDuplicates(xs) ==> Uniq(xs) == xs
  {
    if xs != [] && NoDuplicates(xs) {
      var init := xs[..|xs| - 1];
      UniqOfDistinct(init);
      assert xs[|xs| - 1] !in init;
      assert init + [xs[|xs| - 1]] == xs;
    }
  }

  lemma {:induction false} UniqPrefix(a: seq<Value>, b: seq<Value>)
    ensures |Uniq(a)| <= |Uniq(a + b)|
    ensures Uniq(a + b)[..|Uniq(a)|] == Uniq(a)
    decreases |b|
  {
    if b == [] {
      assert a + b == a;
    } else {
      var b' := b[..|b| - 1];
      UniqPrefix(a, b');
      assert (a + b)[..|a + b| - 1] == a + b';
    }
  }

  /** `R.union`: the elements of both lists, left ones first, no duplicates. */
  function Union(a: seq<Value>, b: seq<Value>): (r: seq<Value>)
    ensures NoDuplicates(r)
    ensures forall x :: x in r <==> x in a || x in b
    ensures NoDuplicates(a) ==> |a| <= |r| && r[..|a|] == a
    ensures |Uniq(a)| <= |r| && r[..|Uniq(a)|] == Uniq(a)
    ensures r == Uniq(a + b)
  {
    UniqPrefix(a, b);
    UniqOfDistinct(a);
    Uniq(a + b)
  }

  /** With nothing on the right, `R.union` is `R.uniq` of the left list. */
  lemma UnionOfNothing(a: seq<Value>)
    ensures Union(a, []) == Uniq(a)
  {
    assert a + [] == a;
  }

  /** The new right elements follow in their own order: extending the right
      list by an element already present changes nothing, and by a new one
      appends it. */
  lemma UnionExtends(a: seq<Value>, b: seq<Value>, x: Value)
    ensures Union(a, b + [x]) == if x in a || x in b then Union(a, b) else Union(a, b) + [x]
  {
    var ab := a + b + [x];
    assert a + (b + [x]) == ab;
    assert ab[..|ab| - 1] == a + b;
    assert x in Uniq(a + b) <==> x in a || x in b;
  }

  /** The conflict rule given to `R.mergeWith` for a key both sides hold. */
  function MergeValues(a: Value, b: Value): (r: Value)
    ensures r.Arr?
    ensures a.Arr? && b.Arr? ==> r.elems == Union(a.elems, b.elems) && NoDuplicates(r.elems)
    ensures a.Arr? && b.Arr? ==> forall x :: x in r.elems <==> x in a.elems || x in b.elems
    ensures a.Arr? && b.Arr? && NoDuplicates(a.elems) ==> |a.elems| <= |r.elems| && r.elems[..|a.elems|] == a.elems
    ensures a.Arr? && !b.Arr? ==> |r.elems| == |a.elems| + 1 && r.elems[..|a.elems|] == a.elems && r.elems[|a.elems|] == b
    ensures !a.Arr? && b.Arr? ==> |r.elems| == |b.elems| + 1 && r.elems[..|b.elems|] == b.elems && r.elems[|b.elems|] == a
    ensures !a.Arr? && !b.Arr? ==> r.elems == [a, b]
  {
    if a.Arr? && b.Arr? then Arr(Union(a.elems, b.elems))
    else if a.Arr? && !b.Arr? then Arr(a.elems + [b])
    else if b.Arr? && !a.Arr? then Arr(b.elems + [a])
    else Arr([a, b])
  }

  /** `R.mergeWith(MergeValues, acc, src)`. */
  function MergeWith(acc: map<string, Value>, src: map<string, Value>): (r: map<string, Value>)
    ensures r.Keys == acc.Keys + src.Keys
  {
    map k | k in acc.Keys + src.Keys ::
      if k in acc && k in src then MergeValues(acc[k], src[k])
      else if k in acc then acc[k]
      else src[k]
  }

  /** The left fold `R.reduce(R.mergeWith(...), acc, xs)`. */
  function FoldMerge(acc: map<string, Value>, xs: seq<Value>): map<string, Value>
    decreases |xs|
  {
    if xs == [] then acc else FoldMerge(MergeWith(acc, OwnProps(xs[0])), xs[1..])
  }

  /** The sources the fold sees: nested lists spliced in, falsy ones dropped. */
  function Sources(sources: seq<Value>): seq<Value> {
    Compact(DeepFlatten(sources))
  }

  /** `flattenStyleSheets(sources)`. */
  function Flatten(sources: seq<Value>): map<string, Value> {
    FoldMerge(map[], Sources(sources))
  }

  /** Every key some source holds. */
  function KeysOfAll(xs: seq<Value>): set<string> {
    if xs == [] then {} else OwnProps(xs[0]).Keys + KeysOfAll(xs[1..])
  }

  // ---- the order in which sources are seen ----

  lemma {:induction false} DeepFlattenAppend(a: seq<Value>, b: seq<Value>)
    ensures DeepFlatten(a + b) == DeepFlatten(a) + DeepFlatten(b)
  {
    if a == [] {
      assert a + b == b;
    } else {
      assert (a + b)[0] == a[0];
      assert (a + b)[1..] == a[1..] + b;
      DeepFlattenAppend(a[1..], b);
    }
  }

  /** A list with no nested list is kept as it is; a nested list is spliced in
      at its own position. */
  lemma {:induction false} DeepFlattenSplices(a: seq<Value>, inner: seq<Value>, b: seq<Value>)
    requires forall i :: 0 <= i < |a| ==> !a[i].Arr?
    ensures DeepFlatten(a) == a
    ensures DeepFlatten(a + [Arr(inner)] + b) == a + DeepFlatten(inner) + DeepFlatten(b)
  {
    FlatIsKept(a);
    DeepFlattenAppend(a + [Arr(inner)], b);
    DeepFlattenAppend(a, [Arr(inner)]);
    assert [Arr(inner)][1..] == [];
  }

  lemma {:induction false} FlatIsKept(a: seq<Value>)
    requires forall i :: 0 <= i < |a| ==> !a[i].Arr?
    ensures DeepFlatten(a) == a
  {
    if a != [] {
      FlatIsKept(a[1..]);
      assert [a[0]] + a[1..] == a;
    }
  }

  lemma {:induction false} CompactAppend(a: seq<Value>, b: seq<Value>)
    ensures Compact(a + b) == Compact(a) + Compact(b)
  {
    if a == [] {
      assert a + b == b;
    } else {
      assert (a + b)[0] == a[0];
      assert (a + b)[1..] == a[1..] + b;
      CompactAppend(a[1..], b);
    }
  }

  /** Flattening a list of falsy entries only (in particular the empty list,
      or a list of nulls and undefineds) gives the empty object. */
  lemma {:induction false} FlattenOfNothing(sources: seq<Value>)
    requires forall i :: 0 <= i < |sources| ==> !Truthy(sources[i])
    ensures Flatten(sources) == map[]
  {
    NothingSurvives(sources);
  }

  lemma {:induction false} NothingSurvives(sources: seq<Value>)
    requires forall i :: 0 <= i < |sources| ==> !Truthy(sources[i])
    ensures Sources(sources) == []
  {
    if sources != [] {
      NothingSurvives(sources[1..]);
      assert !sources[0].Arr?;
      assert DeepFlatten(sources) == [sources[0]] + DeepFlatten(sources[1..]);
      assert Compact(DeepFlatten(sources)) == Compact(DeepFlatten(sources[1..]));
    }
  }

  // ---- what the fold produces ----

  lemma {:induction false} FoldKeys(acc: map<string, Value>, xs: seq<Value>)
    ensures FoldMerge(acc, xs).Keys == acc.Keys + KeysOfAll(xs)
    decreases |xs|
  {
    if xs != [] {
      FoldKeys(MergeWith(acc, OwnProps(xs[0])), xs[1..]);
    }
  }

  /** The result's keys are the union of the sources' keys. */
  lemma FlattenKeys(sources: seq<Value>)
    ensures Flatten(sources).Keys == KeysOfAll(Sources(sources))
  {
    FoldKeys(map[], Sources(sources));
  }

  lemma {:induction false} KeysOfAllMember(xs: seq<Value>, k: string)
    ensures k in KeysOfAll(xs) <==> exists i :: 0 <= i < |xs| && k in OwnProps(xs[i])
  {
    if xs != [] {
      KeysOfAllMember(xs[1..], k);
      if k in KeysOfAll(xs[1..]) {
        var i :| 0 <= i < |xs[1..]| && k in OwnProps(xs[1..][i]);
        assert k in OwnProps(xs[i + 1]);
      }
      if exists i :: 0 <= i < |xs| && k in OwnProps(xs[i]) {
        var i :| 0 <= i < |xs| && k in OwnProps(xs[i]);
        if i > 0 {
          assert k in OwnProps(xs[1..][i - 1]);
        }
      }
    }
  }

  /** A key no later source holds keeps its accumulated value. */
  lemma {:induction false} FoldUntouched(acc: map<string, Value>, xs: seq<Value>, k: string)
    requires k in acc
    requires forall i :: 0 <= i < |xs| ==> k !in OwnProps(xs[i])
    ensures k in FoldMerge(acc, xs) && FoldMerge(acc, xs)[k] == acc[k]
    decreases |xs|
  {
    if xs != [] {
      var next := MergeWith(acc, OwnProps(xs[0]));
      FoldUntouched(next, xs[1..], k);
    }
  }

  /** A key held by exactly one source keeps that source's value. */
  lemma {:induction false} FoldSingleSource(acc: map<string, Value>, xs: seq<Value>, i: nat, k: string)
    requires k !in acc
    requires i < |xs| && k in OwnProps(xs[i])
    requires forall j :: 0 <= j < |xs| && j != i ==> k !in OwnProps(xs[j])
    ensures k in FoldMerge(acc, xs) && FoldMerge(acc, xs)[k] == OwnProps(xs[i])[k]
    decreases |xs|
  {
    var next := MergeWith(acc, OwnProps(xs[0]));
    if i == 0 {
      FoldUntouched(next, xs[1..], k);
    } else {
      FoldSingleSource(next, xs[1..], i - 1, k);
    }
  }

  lemma FlattenSingleSource(sources: seq<Value>, i: nat, k: string)
    requires i < |Sources(sources)| && k in OwnProps(Sources(sources)[i])
    requires forall j :: 0 <= j < |Sources(sources)| && j != i ==> k !in OwnProps(Sources(sources)[j])
    ensures k in Flatten(sources) && Flatten(sources)[k] == OwnProps(Sources(sources)[i])[k]
  {
    FoldSingleSource(map[], Sources(sources), i, k);
  }

  /** Two style objects: a key in both is merged by the conflict rule, a key in
      one of them is copied. */
  lemma FlattenTwo(a: map<string, Value>, b: map<string, Value>, k: string)
    requires k in a || k in b
    ensures k in Flatten([Obj(a), Obj(b)])
    ensures k in a && k in b ==> Flatten([Obj(a), Obj(b)])[k] == MergeValues(a[k], b[k])
    ensures k in a && k !in b ==> Flatten([Obj(a), Obj(b)])[k] == a[k]
    ensures k !in a && k in b ==> Flatten([Obj(a), Obj(b)])[k] == b[k]
  {
    var xs := [Obj(a), Obj(b)];
    assert DeepFlatten(xs) == xs by {
      FlatIsKept(xs);
    }
    assert Compact(xs) == xs by {
      assert Compact(xs[1..]) == [Obj(b)];
    }
    var step1 := MergeWith(map[], a);
    assert FoldMerge(map[], xs) == FoldMerge(step1, [Obj(b)]);
    assert FoldMerge(step1, [Obj(b)]) == MergeWith(step1, b);
  }

  /** The conflict rule is not associative: 1, 2, [3] merged from the left
      gives [1, 2, 3], merged from the right gives [3, 2, 1]. */
  lemma MergeIsNotAssociative()
    ensures MergeValues(MergeValues(Num(1), Num(2)), Arr([Num(3)])) == Arr([Num(1), Num(2), Num(3)])
    ensures MergeValues(Num(1), MergeValues(Num(2), Arr([Num(3)]))) == Arr([Num(3), Num(2), Num(1)])
  {
    assert MergeValues(Num(1), Num(2)) == Arr([Num(1), Num(2)]);
    MergeFromTheLeft();
    MergeFromTheRight();
  }

  /** Two arrays merge into their union in first-occurrence order: `[1]` and
      `[3, 2]` give `[1, 3, 2]`, and `[1, 1]` and `[2]` give `[1, 2]`. */
  lemma MergeKeepsFirstOccurrences()
    ensures MergeValues(Arr([Num(1)]), Arr([Num(3), Num(2)])) == Arr([Num(1), Num(3), Num(2)])
    ensures MergeValues(Arr([Num(1), Num(1)]), Arr([Num(2)])) == Arr([Num(1), Num(2)])
  {
    NewRightElementsKeepTheirOrder();
    RepeatedLeftElementIsDropped();
  }

  lemma NewRightElementsKeepTheirOrder()
    ensures Union([Num(1)], [Num(3), Num(2)]) == [Num(1), Num(3), Num(2)]
  {
    var all := [Num(1), Num(3), Num(2)];
    assert NoDuplicates(all);
    UniqOfDistinct(all);
    assert [Num(1)] + [Num(3), Num(2)] == all;
  }

  lemma RepeatedLeftElementIsDropped()
    ensures Union([Num(1), Num(1)], [Num(2)]) == [Num(1), Num(2)]
  {
    var ones := [Num(1), Num(1)];
    assert ones[..1] == [Num(1)];
    UniqOfDistinct([Num(1)]);
    assert Uniq(ones) == [Num(1)];
    UnionOfNothing(ones);
    UnionExtends(ones, [], Num(2));
    assert [] + [Num(2)] == [Num(2)];
  }

  lemma MergeFromTheRight()
    ensures MergeValues(Num(1), MergeValues(Num(2), Arr([Num(3)]))) == Arr([Num(3), Num(2), Num(1)])
  {
    assert MergeValues(Num(2), Arr([Num(3)])) == Arr([Num(3), Num(2)]);
  }

  lemma MergeFromTheLeft()
    ensures MergeValues(Arr([Num(1), Num(2)]), Arr([Num(3)])) == Arr([Num(1), Num(2), Num(3)])
  {
    var left := [Num(1), Num(2), Num(3)];
    assert NoDuplicates(left);
    UniqOfDistinct(left);
    assert [Num(1), Num(2)] + [Num(3)] == left;
  }
}
