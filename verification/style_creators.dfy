/** src/create-style-creators.js: the four constructors of style creators.
    Each checks its argument, parses or registers the styles once, and returns
    a lookup `(props, theme) => sheet` that may carry a dependency list
    (`getStyles.props`). Closures are kept as data: a creator records what its
    lookup closes over, and `Eval` is the lookup. */
module StyleCreators {
  import opened JsValues
  import opened ThemeVariables
  import opened Parse

  /** How a constructor fails: `invariant` throws with its message, and the
      parser throws a TypeError when it calls a marked value that is not a
      closure. */
  datatype Error = InvariantViolation(message: string) | NotAFunction

  datatype Result<+T> = Ok(value: T) | Err(error: Error)

  /** A style creator: the closure a constructor returns. */
  datatype StyleCreator =
    | ComponentStyles(parsed: Value)
    | ModifierStyles(name: string, variants: Value)
    | BoolModifierStyles(name: string, parsed: Value)
    | UtilStyles(name: string, created: Value)
  {
    /** `getStyles(props, theme)`. */
    function Eval(props: seq<Entry>, theme: Value): Value {
      match this
      case ComponentStyles(parsed) => Get(parsed, theme)
      case ModifierStyles(name, variants) => Get(Get(variants, Lookup(props, name)), theme)
      case BoolModifierStyles(name, parsed) =>
        if !Truthy(Lookup(props, name)) then Undefined else Get(parsed, theme)
      case UtilStyles(name, created) => Obj(map["utils" := Get(created, Lookup(props, name))])
    }

    /** The `props` tag: None when the function has no such property. */
    function Dependencies(): Option<seq<string>> {
      if ComponentStyles? then None else Some([name])
    }
  }

  /** `invariant(is(Object, styles), message)`: the error it throws, if any. */
  function CheckObject(message: string, styles: Value): (r: Option<Error>)
    ensures r.None? <==> IsObject(styles)
    ensures r.Some? ==> r.value == InvariantViolation(message)
  {
    if IsObject(styles) then None else Some(InvariantViolation(message))
  }

  /** `component(parser)(styles)`. */
  function Component(p: Parser, styles: Value): (r: Result<StyleCreator>)
    ensures !IsObject(styles) ==> r == Err(InvariantViolation("Styles passed to component must be an Object"))
    ensures IsObject(styles) ==> (r.Err? <==> ParseStyles(p, styles).None?)
    ensures r.Err? ==> !IsObject(styles) || r.error == NotAFunction
    ensures r.Ok? ==> r.value.ComponentStyles? && r.value.Dependencies() == None
  {
    var check := CheckObject("Styles passed to component must be an Object", styles);
    if check.Some? then Err(check.value)
    else
      var parsed := ParseStyles(p, styles);
      if parsed.None? then Err(NotAFunction) else Ok(ComponentStyles(parsed.value))
  }

  /** `modifier(parser)(name, styles)`: every variant is parsed on its own. */
  function Modifier(p: Parser, name: string, styles: Value): (r: Result<StyleCreator>)
    ensures !IsObject(styles) ==> r == Err(InvariantViolation("Styles passed to modifier must be an Object"))
    ensures styles.Obj? ==>
      (r.Err? <==> exists v :: v in styles.fields && ParseStyles(p, styles.fields[v]).None?)
    ensures styles.Arr? ==>
      (r.Err? <==> exists i :: 0 <= i < |styles.elems| && ParseStyles(p, styles.elems[i]).None?)
    ensures r.Err? ==> !IsObject(styles) || r.error == NotAFunction
    ensures r.Ok? ==> r.value.ModifierStyles? && r.value.Dependencies() == Some([name])
  {
    var check := CheckObject("Styles passed to modifier must be an Object", styles);
    if check.Some? then Err(check.value)
    else
      var variants := MapValues(s => ParseStyles(p, s), styles);
      if variants.None? then Err(NotAFunction) else Ok(ModifierStyles(name, variants.value))
  }

  /** `boolModifier(parser)(name, styles)`. */
  function BoolModifier(p: Parser, name: string, styles: Value): (r: Result<StyleCreator>)
    ensures !IsObject(styles) ==> r == Err(InvariantViolation("Styles passed to boolModifier must be an Object"))
    ensures IsObject(styles) ==> (r.Err? <==> ParseStyles(p, styles).None?)
    ensures r.Err? ==> !IsObject(styles) || r.error == NotAFunction
    ensures r.Ok? ==> r.value.BoolModifierStyles? && r.value.Dependencies() == Some([name])
  {
    var check := CheckObject("Styles passed to boolModifier must be an Object", styles);
    if check.Some? then Err(check.value)
    else
      var parsed := ParseStyles(p, styles);
      if parsed.None? then Err(NotAFunction) else Ok(BoolModifierStyles(name, parsed.value))
  }

  /** `util(name, styles)`: registered once with the host, never parsed, so
      it cannot fail on a theme variable. */
  function Util(env: Env, name: string, styles: Value): (r: Result<StyleCreator>)
    ensures r.Err? <==> !IsObject(styles)
    ensures r.Err? ==> r.error == InvariantViolation("Styles passed to util must be an Object")
    ensures r.Ok? ==> r.value == UtilStyles(name, env.create(styles)) && r.value.Dependencies() == Some([name])
  {
    var check := CheckObject("Styles passed to util must be an Object", styles);
    if check.Some? then Err(check.value) else Ok(UtilStyles(name, env.create(styles)))
  }

  /** The object `createStyleCreators(themes)` returns: one parser, built once
      from the themes, behind `component`, `modifier` and `boolModifier`;
      `util` is the module-level constructor (`combineStyles` is the
      CombineStyles module). */
  datatype StyleCreatorSet = StyleCreatorSet(env: Env, parser: Parser)
  {
    function MakeComponent(styles: Value): Result<StyleCreator> {
      Component(parser, styles)
    }
    function MakeModifier(name: string, styles: Value): Result<StyleCreator> {
      Modifier(parser, name, styles)
    }
    function MakeBoolModifier(name: string, styles: Value): Result<StyleCreator> {
      BoolModifier(parser, name, styles)
    }
    function MakeUtil(name: string, styles: Value): Result<StyleCreator> {
      Util(env, name, styles)
    }
  }

  function CreateStyleCreators(env: Env, themes: map<string, Theme>): (r: StyleCreatorSet)
    ensures r.parser.themes == themes && r.parser.env == env
  {
    StyleCreatorSet(env, Parser(env, themes))
  }

  /** A component's lookup ignores props, and for a theme of the registry it
      is that theme's parsed sheet. */
  lemma ComponentLookup(p: Parser, styles: Value, props1: seq<Entry>, props2: seq<Entry>, theme: string)
    requires Component(p, styles).Ok?
    ensures Component(p, styles).value.Eval(props1, Str(theme)) == Component(p, styles).value.Eval(props2, Str(theme))
    ensures theme in p.themes ==>
      Component(p, styles).value.Eval(props1, Str(theme)) == ParseStyles(p, styles).value.fields[theme]
    ensures theme !in p.themes ==> Component(p, styles).value.Eval(props1, Str(theme)) == Undefined
  {
  }

  /** A modifier looks up the variant named by `props[name]`, then the theme;
      a variant or theme that is not there gives undefined. */
  lemma ModifierLookup(p: Parser, name: string, styles: Value, props: seq<Entry>, variant: string, theme: string)
    requires styles.Obj? && Modifier(p, name, styles).Ok?
    requires Lookup(props, name) == Str(variant)
    ensures variant in styles.fields && theme in p.themes ==>
      Modifier(p, name, styles).value.Eval(props, Str(theme)) == ParseStyles(p, styles.fields[variant]).value.fields[theme]
    ensures variant !in styles.fields ==> Modifier(p, name, styles).value.Eval(props, Str(theme)) == Undefined
    ensures variant in styles.fields && theme !in p.themes ==>
      Modifier(p, name, styles).value.Eval(props, Str(theme)) == Undefined
  {
    if variant in styles.fields {
      assert ParseStyles(p, styles.fields[variant]).Some?;
    }
  }

  /** A modifier given an array of variants picks one by its position, named
      by a number or by the number's decimal text (`props.size = "1"`). */
  lemma ModifierArrayLookup(p: Parser, name: string, styles: Value, props: seq<Entry>, i: nat, theme: string)
    requires styles.Arr? && Modifier(p, name, styles).Ok?
    requires i < |styles.elems| && theme in p.themes
    requires Lookup(props, name) == Num(i) || Lookup(props, name) == Str(NatToString(i))
    ensures ParseStyles(p, styles.elems[i]).Some?
    ensures Modifier(p, name, styles).value.Eval(props, Str(theme)) == ParseStyles(p, styles.elems[i]).value.fields[theme]
  {
    var variants := MapValues(s => ParseStyles(p, s), styles).value;
    assert Modifier(p, name, styles).value == ModifierStyles(name, variants);
    ArrayIndexOfText(i, |styles.elems|);
    assert ArrayIndex(Lookup(props, name), |styles.elems|) == Some(i);
    var sheets := variants.elems[i];
    assert sheets == ParseStyles(p, styles.elems[i]).value && sheets.Obj?;
    assert Get(variants, Lookup(props, name)) == sheets;
  }

  /** A bool modifier gives nothing while `props[name]` is falsy, and the
      theme's parsed sheet once it is truthy. */
  lemma BoolModifierLookup(p: Parser, name: string, styles: Value, props: seq<Entry>, theme: string)
    requires BoolModifier(p, name, styles).Ok?
    ensures !Truthy(Lookup(props, name)) ==> BoolModifier(p, name, styles).value.Eval(props, Str(theme)) == Undefined
    ensures Truthy(Lookup(props, name)) && theme in p.themes ==>
      BoolModifier(p, name, styles).value.Eval(props, Str(theme)) == ParseStyles(p, styles).value.fields[theme]
  {
    assert ParseStyles(p, styles).value.Obj?;
  }

  /** A util ignores the theme and wraps the registered sheet picked by
      `props[name]` under `utils`. */
  lemma UtilLookup(env: Env, name: string, styles: Value, props: seq<Entry>, theme1: Value, theme2: Value)
    requires IsObject(styles)
    ensures Util(env, name, styles).Ok?
    ensures Util(env, name, styles).value.Eval(props, theme1) == Util(env, name, styles).value.Eval(props, theme2)
    ensures Util(env, name, styles).value.Eval(props, theme1) ==
      Obj(map["utils" := Get(env.create(styles), Lookup(props, name))])
  {
  }

  /** Only the component lookup carries no dependency list; the others depend
      on exactly the prop they were named after. */
  lemma DependenciesOfCreators(c: StyleCreator)
    ensures c.Dependencies().None? <==> c.ComponentStyles?
    ensures !c.ComponentStyles? ==> c.Dependencies() == Some([c.name])
  {
  }

  /** The creators of one set share the parser built from the set's themes: a
      component made through the set gives, for each theme, the sheet
      registered from the styles parsed against that theme. */
  lemma SharedParser(env: Env, themes: map<string, Theme>, styles: Value, theme: string)
    requires IsObject(styles) && !AllNumbers(styles) && !SheetFails(styles)
    requires theme in themes
    ensures CreateStyleCreators(env, themes).MakeComponent(styles).Ok?
    ensures CreateStyleCreators(env, themes).MakeComponent(styles).value.Eval([], Str(theme)) ==
      env.create(ParseThemeStyles(env, themes[theme], styles).value)
  {
    ParseStylesFails(Parser(env, themes), styles);
  }

  /** A lookup reads the props only through its own dependency: two props
      objects that agree on it give the same styles. */
  lemma EvalReadsOnlyDependency(c: StyleCreator, props1: seq<Entry>, props2: seq<Entry>, theme: Value)
    requires c.ComponentStyles? || Lookup(props1, c.name) == Lookup(props2, c.name)
    ensures c.Eval(props1, theme) == c.Eval(props2, theme)
  {
  }
}
