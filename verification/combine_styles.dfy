/** src/utils/combine-styles.js: `combineStyles(...creators)` splits the
    creators into prop-independent and prop-dependent ones, indexes the latter
    by the prop they depend on, and returns a `createStyles(props, theme)`
    whose work is memoised on the non-nil props and the theme. */
module CombineStyles {
  import opened JsValues
  import opened StyleCreators
  import opened FlattenStyleSheets

  /** `R.has('props')`: the creator carries a dependency list. */
  predicate HasProps(c: StyleCreator) {
    c.Dependencies().Some?
  }

  /** The second half of `R.partition(R.has('props'), creators)`. */
  function Independent(cs: seq<StyleCreator>): (r: seq<StyleCreator>)
    ensures forall i :: 0 <= i < |r| ==> !HasProps(r[i])
    ensures forall c :: c in r ==> c in cs
  {
    if cs == [] then []
    else if HasProps(cs[|cs| - 1]) then Independent(cs[..|cs| - 1])
    else Independent(cs[..|cs| - 1]) + [cs[|cs| - 1]]
  }

  /** The first half of `R.partition(R.has('props'), creators)`. */
  function Dependent(cs: seq<StyleCreator>): (r: seq<StyleCreator>)
    ensures forall i :: 0 <= i < |r| ==> HasProps(r[i])
    ensures forall c :: c in r ==> c in cs
  {
    if cs == [] then []
    else if HasProps(cs[|cs| - 1]) then Dependent(cs[..|cs| - 1]) + [cs[|cs| - 1]]
    else Dependent(cs[..|cs| - 1])
  }

  /** The partition loses and invents no creator. */
  lemma {:induction false} PartitionIsPermutation(cs: seq<StyleCreator>)
    ensures multiset(Independent(cs)) + multiset(Dependent(cs)) == multiset(cs)
  {
    if cs != [] {
      PartitionIsPermutation(cs[..|cs| - 1]);
      assert cs == cs[..|cs| - 1] + [cs[|cs| - 1]];
    }
  }

  /** Both halves keep the argument order: partitioning a concatenation
      partitions each part and concatenates the results. */
  lemma {:induction false} PartitionKeepsOrder(a: seq<StyleCreator>, b: seq<StyleCreator>)
    ensures Independent(a + b) == Independent(a) + Independent(b)
    ensures Dependent(a + b) == Dependent(a) + Dependent(b)
    decreases |b|
  {
    if b != [] {
      PartitionKeepsOrder(a, b[..|b| - 1]);
      assert (a + b)[..|a + b| - 1] == a + b[..|b| - 1];
    } else {
      assert a + b == a;
    }
  }

  /** `R.compose(R.head, R.prop('props'))`: the first dependency. */
  function IndexKey(c: StyleCreator): string
    requires HasProps(c)
  {
    c.Dependencies().value[0]
  }

  /** `R.indexBy(firstDependency, creators)`: later creators replace earlier
      ones with the same key. */
  function IndexBy(cs: seq<StyleCreator>): (r: map<string, StyleCreator>)
    requires forall i :: 0 <= i < |cs| ==> HasProps(cs[i])
    ensures forall k :: k in r ==> HasProps(r[k]) && r[k].name == k && r[k] in cs
  {
    if cs == [] then map[]
    else IndexBy(cs[..|cs| - 1])[IndexKey(cs[|cs| - 1]) := cs[|cs| - 1]]
  }

  /** No creator at `i` or after it has the key `k`. */
  predicate LastWithKey(cs: seq<StyleCreator>, i: int, k: string)
    requires forall j :: 0 <= j < |cs| ==> HasProps(cs[j])
  {
    0 <= i < |cs| && IndexKey(cs[i]) == k &&
    forall j :: i < j < |cs| ==> IndexKey(cs[j]) != k
  }

  /** A key is indexed exactly when some creator has it. */
  lemma {:induction false} IndexByKeys(cs: seq<StyleCreator>, k: string)
    requires forall i :: 0 <= i < |cs| ==> HasProps(cs[i])
    ensures k in IndexBy(cs) <==> exists i :: 0 <= i < |cs| && IndexKey(cs[i]) == k
  {
    if cs != [] {
      var n := |cs| - 1;
      IndexByKeys(cs[..n], k);
      if k in IndexBy(cs) && IndexKey(cs[n]) != k {
        var i :| 0 <= i < n && IndexKey(cs[..n][i]) == k;
        assert cs[i] == cs[..n][i];
      }
      if exists i :: 0 <= i < |cs| && IndexKey(cs[i]) == k {
        var i :| 0 <= i < |cs| && IndexKey(cs[i]) == k;
        if i < n {
          assert cs[..n][i] == cs[i];
        }
      }
    }
  }

  /** When two creators share a key, the later one replaces the earlier: the
      key maps to the last creator that has it. */
  lemma {:induction false} IndexByLastWins(cs: seq<StyleCreator>, i: int, k: string)
    requires forall j :: 0 <= j < |cs| ==> HasProps(cs[j])
    requires LastWithKey(cs, i, k)
    ensures k in IndexBy(cs) && IndexBy(cs)[k] == cs[i]
  {
    var n := |cs| - 1;
    var init := cs[..n];
    assert IndexBy(cs) == IndexBy(init)[IndexKey(cs[n]) := cs[n]];
    if i < n {
      assert IndexKey(cs[n]) != k;
      assert LastWithKey(init, i, k) by {
        forall j | i < j < n
          ensures IndexKey(init[j]) != k
        {
          assert init[j] == cs[j];
        }
      }
      IndexByLastWins(init, i, k);
    }
  }

  /** `getPropDendencies`: the dependency lists of the creators, concatenated
      (`R.flatten` of lists of names). */
  function PropDependencies(cs: seq<StyleCreator>): seq<string>
    requires forall i :: 0 <= i < |cs| ==> HasProps(cs[i])
  {
    if cs == [] then []
    else
      assert HasProps(cs[|cs| - 1]);
      PropDependencies(cs[..|cs| - 1]) + cs[|cs| - 1].Dependencies().value
  }

  /** Every prop-dependent creator contributes its name, in argument order. */
  lemma {:induction false} PropDependenciesAreNames(cs: seq<StyleCreator>)
    requires forall i :: 0 <= i < |cs| ==> HasProps(cs[i])
    ensures |PropDependencies(cs)| == |cs|
    ensures forall i :: 0 <= i < |cs| ==> PropDependencies(cs)[i] == cs[i].name
  {
    if cs != [] {
      PropDependenciesAreNames(cs[..|cs| - 1]);
    }
  }

  /** `R.pickBy(isNotNil, props)`. */
  function NonNil(p: Props): (r: Props)
    ensures forall i :: 0 <= i < |r| ==> !IsNil(r[i].1) && r[i] in p
    ensures forall i :: 0 <= i < |p| && !IsNil(p[i].1) ==> p[i] in r
  {
    if p == [] then []
    else
      var init: Props := p[..|p| - 1];
      var last := p[|p| - 1];
      var r := NonNil(init);
      if IsNil(last.1) then r
      else
        assert forall i :: 0 <= i < |r| ==> r[i].0 != last.0 by {
          forall i | 0 <= i < |r|
            ensures r[i].0 != last.0
          {
            var j :| 0 <= j < |init| && init[j] == r[i];
          }
        }
        r + [last]
  }

  /** Dropping nil props commutes with concatenation. */
  lemma {:induction false} NonNilAppend(a: Props, b: Props)
    requires DistinctKeys(a + b)
    ensures NonNil(a + b) == NonNil(a) + NonNil(b)
    decreases |b|
  {
    if b == [] {
      assert a + b == a;
    } else {
      var b': Props := b[..|b| - 1];
      assert (a + b)[..|a + b| - 1] == a + b';
      NonNilAppend(a, b');
    }
  }

  /** A prop whose value is null or undefined is the same as no prop at all:
      `{size: null}` keys the cache like `{}`. */
  lemma NilPropIsDropped(a: Props, k: string, v: Value, b: Props)
    requires IsNil(v) && DistinctKeys(a + [(k, v)] + b)
    ensures DistinctKeys(a + b)
    ensures NonNil(a + [(k, v)] + b) == NonNil(a + b)
  {
    assert DistinctKeys(a + [(k, v)]) by {
      forall i, j | 0 <= i < j < |a| + 1
        ensures (a + [(k, v)])[i].0 != (a + [(k, v)])[j].0
      {
        assert (a + [(k, v)])[i] == (a + [(k, v)] + b)[i];
        assert (a + [(k, v)])[j] == (a + [(k, v)] + b)[j];
      }
    }
    var ak: Props := a + [(k, v)];
    assert a + [(k, v)] + b == ak + b;
    assert DistinctKeys(a + b) by {
      forall i, j | 0 <= i < j < |a + b|
        ensures (a + b)[i].0 != (a + b)[j].0
      {
        var i' := if i < |a| then i else i + 1;
        var j' := if j < |a| then j else j + 1;
        assert (a + b)[i] == (ak + b)[i'] && (a + b)[j] == (ak + b)[j'];
      }
    }
    NonNilAppend(ak, b);
    NonNilAppend(a, [(k, v)]);
    NonNilAppend(a, b);
  }

  /** A prop that is not nil is part of the key, whether or not a creator
      depends on it: it always opens a cache entry of its own. */
  lemma NonNilPropIsKeyed(p: Props, e: Entry)
    requires DistinctKeys(p + [e]) && !IsNil(e.1)
    ensures NonNil(p + [e]) == NonNil(p) + [e]
    ensures NonNil(p + [e]) != NonNil(p)
  {
  }

  /** `R.values(R.pick(R.keys(props), byProp))`: the indexed creators whose
      key is a prop, in the order of the props. */
  function Selected(byProp: map<string, StyleCreator>, p: seq<Entry>): (r: seq<StyleCreator>)
    ensures forall i :: 0 <= i < |r| ==> r[i] in byProp.Values
  {
    if p == [] then []
    else
      var r := Selected(byProp, p[..|p| - 1]);
      var k := p[|p| - 1].0;
      if k in byProp then r + [byProp[k]] else r
  }

  /** The selection follows the props: each prop contributes the creator
      indexed under its name, if any, at its own position. */
  lemma {:induction false} SelectedFollowsProps(byProp: map<string, StyleCreator>, a: seq<Entry>, b: seq<Entry>)
    ensures Selected(byProp, a + b) == Selected(byProp, a) + Selected(byProp, b)
    ensures forall e: Entry :: Selected(byProp, [e]) == if e.0 in byProp then [byProp[e.0]] else []
    decreases |b|
  {
    if b == [] {
      assert a + b == a;
    } else {
      assert (a + b)[..|a + b| - 1] == a + b[..|b| - 1];
      assert (a + b)[|a + b| - 1] == b[|b| - 1];
      SelectedFollowsProps(byProp, a, b[..|b| - 1]);
    }
    forall e: Entry
      ensures Selected(byProp, [e]) == if e.0 in byProp then [byProp[e.0]] else []
    {
      SelectedOfOne(byProp, e);
    }
  }

  lemma SelectedOfOne(byProp: map<string, StyleCreator>, e: Entry)
    ensures Selected(byProp, [e]) == if e.0 in byProp then [byProp[e.0]] else []
  {
    assert [e][..0] == [];
  }

  /** `reduceStyles(props, theme, creators)`: every creator's lookup, in
      order. */
  function ReduceStyles(p: seq<Entry>, theme: Value, cs: seq<StyleCreator>): (r: seq<Value>)
    ensures |r| == |cs|
    ensures forall i :: 0 <= i < |cs| ==> r[i] == cs[i].Eval(p, theme)
  {
    seq(|cs|, i requires 0 <= i < |cs| => cs[i].Eval(p, theme))
  }

  /** The lookups of two lists of creators, one after the other, are the
      lookups of the joined list: each creator is evaluated on its own. */
  lemma ReduceStylesAppend(p: seq<Entry>, theme: Value, a: seq<StyleCreator>, b: seq<StyleCreator>)
    ensures ReduceStyles(p, theme, a + b) == ReduceStyles(p, theme, a) + ReduceStyles(p, theme, b)
  {
  }

  /** The body of `pickStyles`: the prop-independent creators' styles first,
      then those of the selected prop-dependent creators, flattened. */
  function PickedStyles(independent: seq<StyleCreator>, byProp: map<string, StyleCreator>, p: Props, theme: Value): map<string, Value> {
    Flatten(ReduceStyles(p, theme, independent + Selected(byProp, p)))
  }

  /** `theme = 'default'`: the default applies only when no theme is given. */
  function DefaultTheme(theme: Value): (r: Value)
    ensures theme.Undefined? ==> r == Str("default")
    ensures !theme.Undefined? ==> r == theme
  {
    if theme.Undefined? then Str("default") else theme
  }

  /** Looking up a name that is not the appended prop's. */
  lemma {:induction false} LookupAppendOther(p: seq<Entry>, e: Entry, name: string)
    requires e.0 != name
    ensures Lookup(p + [e], name) == Lookup(p, name)
  {
    if p != [] {
      assert (p + [e])[1..] == p[1..] + [e];
      LookupAppendOther(p[1..], e, name);
    }
  }

  /** A prop that no indexed creator is keyed by selects nothing. */
  lemma SelectedIgnoresUnindexed(byProp: map<string, StyleCreator>, p: seq<Entry>, e: Entry)
    requires e.0 !in byProp
    ensures Selected(byProp, p + [e]) == Selected(byProp, p)
  {
  }

  /** No creator of `cs` other than a component depends on `name`. */
  predicate NoneDependsOn(cs: seq<StyleCreator>, name: string) {
    forall i :: 0 <= i < |cs| ==> cs[i].ComponentStyles? || cs[i].name != name
  }

  /** A name no creator depends on is not a key of the index. */
  lemma UnusedNameIsNotIndexed(cs: seq<StyleCreator>, name: string)
    requires NoneDependsOn(cs, name)
    ensures name !in IndexBy(Dependent(cs))
  {
  }

  /** A prop on which no creator depends changes nothing in the styles,
      although it still takes a cache entry of its own. */
  lemma IrrelevantPropDoesNotMatter(cs: seq<StyleCreator>, p: Props, e: Entry, theme: Value)
    requires DistinctKeys(p + [e])
    requires NoneDependsOn(cs, e.0)
    ensures PickedStyles(Independent(cs), IndexBy(Dependent(cs)), p + [e], theme)
         == PickedStyles(Independent(cs), IndexBy(Dependent(cs)), p, theme)
  {
    var byProp := IndexBy(Dependent(cs));
    UnusedNameIsNotIndexed(cs, e.0);
    SelectedIgnoresUnindexed(byProp, p, e);
    var all := Independent(cs) + Selected(byProp, p);
    forall i | 0 <= i < |all|
      ensures all[i].Eval(p + [e], theme) == all[i].Eval(p, theme)
    {
      if !all[i].ComponentStyles? {
        assert all[i] in cs;
        LookupAppendOther(p, e, all[i].name);
      }
      EvalReadsOnlyDependency(all[i], p + [e], p, theme);
    }
    assert ReduceStyles(p + [e], theme, all) == ReduceStyles(p, theme, all);
  }

  /** The function `combineStyles(...creators)` returns, with the table of
      its memoised `pickStyles`. */
  class CombinedStyles {
    const creators: seq<StyleCreator>
    const independent: seq<StyleCreator>
    const byProp: map<string, StyleCreator>
    /** `createStyles.props`. */
    const dependencies: seq<string>
    /** The memo table, keyed by the non-nil props and the theme. */
    var memo: map<(Props, Value), map<string, Value>>
    /** How many times the creators have been run. */
    ghost var evaluations: nat

    /** Every stored result is what `pickStyles` computes for its key. */
    ghost predicate Valid()
      reads this
    {
      independent == Independent(creators) &&
      byProp == IndexBy(Dependent(creators)) &&
      dependencies == PropDependencies(Dependent(creators)) &&
      forall key :: key in memo ==> memo[key] == PickedStyles(independent, byProp, key.0, key.1)
    }

    constructor(creators: seq<StyleCreator>)
      ensures Valid()
      ensures this.creators == creators && memo == map[] && evaluations == 0
    {
      this.creators := creators;
      independent := Independent(creators);
      byProp := IndexBy(Dependent(creators));
      dependencies := PropDependencies(Dependent(creators));
      memo := map[];
      evaluations := 0;
    }

    /** `pickStyles(p, theme)`: a hit returns the stored result and runs no
        creator; a miss runs them once and stores the result. */
    method PickStyles(p: Props, theme: Value) returns (r: map<string, Value>)
      requires Valid()
      modifies this`memo, this`evaluations
      ensures Valid()
      ensures r == PickedStyles(independent, byProp, p, theme)
      ensures (p, theme) in old(memo) ==> memo == old(memo) && evaluations == old(evaluations)
      ensures (p, theme) !in old(memo) ==> memo == old(memo)[(p, theme) := r] && evaluations == old(evaluations) + 1
    {
      if (p, theme) in memo {
        r := memo[(p, theme)];
      } else {
        r := PickedStyles(independent, byProp, p, theme);
        memo := memo[(p, theme) := r];
        evaluations := evaluations + 1;
      }
    }

    /** `createStyles(props, theme)`. */
    method CreateStyles(props: Props, theme: Value) returns (r: map<string, Value>)
      requires Valid()
      modifies this`memo, this`evaluations
      ensures Valid()
      ensures r == PickedStyles(independent, byProp, NonNil(props), DefaultTheme(theme))
      ensures (NonNil(props), DefaultTheme(theme)) in old(memo) ==> memo == old(memo) && evaluations == old(evaluations)
      ensures (NonNil(props), DefaultTheme(theme)) !in old(memo) ==>
        memo == old(memo)[(NonNil(props), DefaultTheme(theme)) := r] && evaluations == old(evaluations) + 1
    {
      r := PickStyles(NonNil(props), DefaultTheme(theme));
    }
  }

  /** Calling `createStyles` again with the same non-nil props and theme runs
      no creator and gives the same styles, however nil props differ. */
  method CreateStylesTwice(c: CombinedStyles, props1: Props, props2: Props, theme: Value)
      returns (r1: map<string, Value>, r2: map<string, Value>)
    requires c.Valid() && NonNil(props1) == NonNil(props2)
    modifies c`memo, c`evaluations
    ensures c.Valid()
    ensures r1 == r2
    ensures c.evaluations <= old(c.evaluations) + 1
  {
    r1 := c.CreateStyles(props1, theme);
    var n := c.evaluations;
    r2 := c.CreateStyles(props2, theme);
    assert c.evaluations == n;
  }
}
