/** src/utils/parse.js: turn a two-level style object (block name, then
    property) into one registered sheet per theme, resolving theme variables
    against each theme. */
module Parse {
  import opened JsValues
  import opened ThemeVariables

  /** `isThemeVariable`: an object or function whose `variable` property is
      truthy. */
  predicate IsThemeVariable(v: Value) {
    IsObject(v) && Truthy(Get(v, Str("variable")))
  }

  /** A marked value that is not a closure: calling it throws a TypeError. */
  predicate Uncallable(v: Value) {
    IsThemeVariable(v) && !v.Var?
  }

  /** The function `parseStyle(theme)` applies to each leaf: numbers and
      ordinary values are kept, a theme variable is called with the theme;
      None when the marked value cannot be called. */
  function ParseLeaf(env: Env, theme: Theme, v: Value): Option<Value> {
    if v.Num? then Some(v)
    else if IsThemeVariable(v) then (if v.Var? then Some(Resolve(env, v, theme)) else None)
    else Some(v)
  }

  /** What a leaf that can be parsed becomes. */
  function Resolved(env: Env, theme: Theme, v: Value): Value {
    if v.Var? then Resolve(env, v, theme) else v
  }

  /** `parseStyle(theme)(block)`: in an object or array block every leaf is
      kept, except that theme variables are replaced by their value for the
      theme; a marked non-closure makes it throw. */
  function ParseStyle(env: Env, theme: Theme, block: Value): (r: Option<Value>)
    ensures block.Obj? ==> (r.None? <==> exists k :: k in block.fields && Uncallable(block.fields[k]))
    ensures block.Obj? && r.Some? ==>
      r.value.Obj? && r.value.fields.Keys == block.fields.Keys &&
      forall k :: k in block.fields ==> r.value.fields[k] == Resolved(env, theme, block.fields[k])
    ensures block.Arr? ==> (r.None? <==> exists i :: 0 <= i < |block.elems| && Uncallable(block.elems[i]))
    ensures block.Arr? && r.Some? ==>
      r.value.Arr? && |r.value.elems| == |block.elems| &&
      forall i :: 0 <= i < |block.elems| ==> r.value.elems[i] == Resolved(env, theme, block.elems[i])
    ensures !block.Obj? && !block.Arr? ==> r == Some(block)
  {
    MapValues(v => ParseLeaf(env, theme, v), block)
  }

  /** `parseThemeStyles(theme, styles)`: `parseStyle(theme)` applied to every
      block. */
  function ParseThemeStyles(env: Env, theme: Theme, styles: Value): (r: Option<Value>)
    ensures styles.Obj? ==> (r.None? <==> exists k :: k in styles.fields && ParseStyle(env, theme, styles.fields[k]).None?)
    ensures styles.Obj? && r.Some? ==>
      r.value.Obj? && r.value.fields.Keys == styles.fields.Keys &&
      forall k :: k in styles.fields ==> r.value.fields[k] == ParseStyle(env, theme, styles.fields[k]).value
    ensures styles.Arr? ==> (r.None? <==> exists i :: 0 <= i < |styles.elems| && ParseStyle(env, theme, styles.elems[i]).None?)
    ensures styles.Arr? && r.Some? ==>
      r.value.Arr? && |r.value.elems| == |styles.elems| &&
      forall i :: 0 <= i < |styles.elems| ==> r.value.elems[i] == ParseStyle(env, theme, styles.elems[i]).value
    ensures !styles.Obj? && !styles.Arr? ==> r == Some(styles)
  {
    MapValues(b => ParseStyle(env, theme, b), styles)
  }

  /** `R.all(R.is(Number), R.values(styles))`: every block is already a
      registered sheet. True of an empty object and of any non-object. */
  predicate AllNumbers(styles: Value) {
    forall k :: k in Entries(styles) ==> Entries(styles)[k].Num?
  }

  /** `R.any(isThemeVariable, R.values(block))`. */
  predicate HasVariable(block: Value) {
    exists k :: k in Entries(block) && IsThemeVariable(Entries(block)[k])
  }

  /** `hasThemeDependencies(styles)` as written: `R.map` over `R.values`, so
      an array holding one Boolean per block (in `R.values` order), not a
      Boolean. */
  function HasThemeDependencies(styles: Value): (r: Value)
    ensures r.Arr? && |r.elems| == |Values(styles)|
    ensures forall i :: 0 <= i < |r.elems| ==> r.elems[i] == Bool(HasVariable(Values(styles)[i]))
  {
    var blocks := Values(styles);
    Arr(seq(|blocks|, i requires 0 <= i < |blocks| => Bool(HasVariable(blocks[i]))))
  }

  /** The test `!hasThemeDependencies(styles)` is never true: an array is an
      object, hence truthy, even an empty one. */
  lemma ThemeTestNeverFalse(styles: Value)
    ensures Truthy(HasThemeDependencies(styles))
  {
  }

  /** The flags do carry the intended information: some flag is true exactly
      when some block holds a theme variable. */
  lemma {:induction false} FlagsRecordVariables(styles: Value)
    ensures Bool(true) in HasThemeDependencies(styles).elems <==> !NoVariables(styles)
  {
    var flags := HasThemeDependencies(styles).elems;
    var blocks := Values(styles);
    ValuesAreEntries(styles);
    if Bool(true) in flags {
      var i :| 0 <= i < |flags| && flags[i] == Bool(true);
      assert blocks[i] in blocks;
      var k :| k in Entries(styles) && Entries(styles)[k] == blocks[i];
      assert HasVariable(Entries(styles)[k]);
    }
    if !NoVariables(styles) {
      var k :| k in Entries(styles) && HasVariable(Entries(styles)[k]);
      var v := Entries(styles)[k];
      assert v in blocks;
      var i :| 0 <= i < |blocks| && blocks[i] == v;
      assert flags[i] == Bool(true);
    }
  }

  /** `createSharedStyles(sheet)`: the same sheet under every theme name. */
  function CreateSharedStyles(themes: map<string, Theme>, sheet: Value): (r: map<string, Value>)
    ensures r.Keys == themes.Keys
    ensures forall n :: n in r ==> r[n] == sheet
  {
    map n | n in themes :: sheet
  }

  /** The parser `createStylesParser(themes)` builds. */
  datatype Parser = Parser(env: Env, themes: map<string, Theme>)

  predicate EveryThemeParses(p: Parser, styles: Value) {
    forall n :: n in p.themes ==> ParseThemeStyles(p.env, p.themes[n], styles).Some?
  }

  /** `createStylesParser(themes)(styles)`: a map from theme name to sheet, or
      None when a marked value that is not a closure is called. */
  function ParseStyles(p: Parser, styles: Value): (r: Option<Value>)
    ensures r.Some? ==> r.value.Obj? && r.value.fields.Keys == p.themes.Keys
    ensures AllNumbers(styles) ==> r == Some(Obj(map n | n in p.themes :: styles))
    ensures !AllNumbers(styles) ==> (r.Some? <==> EveryThemeParses(p, styles))
    ensures !AllNumbers(styles) && r.Some? ==>
      forall n :: n in p.themes ==>
        r.value.fields[n] == p.env.create(ParseThemeStyles(p.env, p.themes[n], styles).value)
  {
    if AllNumbers(styles) then
      Some(Obj(CreateSharedStyles(p.themes, styles)))
    else
      ThemeTestNeverFalse(styles);
      if !Truthy(HasThemeDependencies(styles)) then
        Some(Obj(CreateSharedStyles(p.themes, p.env.create(styles))))
      else if EveryThemeParses(p, styles) then
        Some(Obj(map n | n in p.themes :: p.env.create(ParseThemeStyles(p.env, p.themes[n], styles).value)))
      else
        None
  }

  /** Parsing fails, for any theme, exactly when an object or array block holds
      a marked value that is not a closure. */
  predicate BlockFails(block: Value) {
    (block.Obj? || block.Arr?) && exists k :: k in Entries(block) && Uncallable(Entries(block)[k])
  }

  predicate SheetFails(styles: Value) {
    (styles.Obj? || styles.Arr?) && exists k :: k in Entries(styles) && BlockFails(Entries(styles)[k])
  }

  lemma ParseStyleFails(env: Env, theme: Theme, block: Value)
    ensures ParseStyle(env, theme, block).None? <==> BlockFails(block)
  {
    if block.Arr? {
      ArrayBlockFails(env, theme, block);
    } else if block.Obj? {
      ObjectBlockFails(env, theme, block);
    }
  }

  lemma ArrayBlockFails(env: Env, theme: Theme, block: Value)
    requires block.Arr?
    ensures ParseStyle(env, theme, block).None? <==> BlockFails(block)
  {
    var e := Entries(block);
    if ParseStyle(env, theme, block).None? {
      var i :| 0 <= i < |block.elems| && Uncallable(block.elems[i]);
      assert Num(i) in e && Uncallable(e[Num(i)]);
    }
    if BlockFails(block) {
      var k :| k in e && Uncallable(e[k]);
      assert Uncallable(block.elems[k.n]);
    }
  }

  lemma ObjectBlockFails(env: Env, theme: Theme, block: Value)
    requires block.Obj?
    ensures ParseStyle(env, theme, block).None? <==> BlockFails(block)
  {
    var e := Entries(block);
    if ParseStyle(env, theme, block).None? {
      var k :| k in block.fields && Uncallable(block.fields[k]);
      assert Str(k) in e && Uncallable(e[Str(k)]);
    }
    if BlockFails(block) {
      var k :| k in e && Uncallable(e[k]);
      assert Uncallable(block.fields[k.s]);
    }
  }

  lemma ParseThemeStylesFails(env: Env, theme: Theme, styles: Value)
    ensures ParseThemeStyles(env, theme, styles).None? <==> SheetFails(styles)
  {
    if styles.Arr? {
      ArraySheetFails(env, theme, styles);
    } else if styles.Obj? {
      ObjectSheetFails(env, theme, styles);
    }
  }

  lemma ArraySheetFails(env: Env, theme: Theme, styles: Value)
    requires styles.Arr?
    ensures ParseThemeStyles(env, theme, styles).None? <==> SheetFails(styles)
  {
    var e := Entries(styles);
    if ParseThemeStyles(env, theme, styles).None? {
      var i :| 0 <= i < |styles.elems| && ParseStyle(env, theme, styles.elems[i]).None?;
      ParseStyleFails(env, theme, styles.elems[i]);
      assert Num(i) in e && BlockFails(e[Num(i)]);
    }
    if SheetFails(styles) {
      var k :| k in e && BlockFails(e[k]);
      ParseStyleFails(env, theme, styles.elems[k.n]);
    }
  }

  lemma ObjectSheetFails(env: Env, theme: Theme, styles: Value)
    requires styles.Obj?
    ensures ParseThemeStyles(env, theme, styles).None? <==> SheetFails(styles)
  {
    var e := Entries(styles);
    if ParseThemeStyles(env, theme, styles).None? {
      var k :| k in styles.fields && ParseStyle(env, theme, styles.fields[k]).None?;
      ParseStyleFails(env, theme, styles.fields[k]);
      assert Str(k) in e && BlockFails(e[Str(k)]);
    }
    if SheetFails(styles) {
      var k :| k in e && BlockFails(e[k]);
      ParseStyleFails(env, theme, styles.fields[k.s]);
    }
  }

  /** The parser throws exactly when there is at least one theme, some block
      is not a number, and a marked non-closure sits in an object or array
      block; which theme is being parsed does not matter. */
  lemma ParseStylesFails(p: Parser, styles: Value)
    ensures ParseStyles(p, styles).None? <==> !AllNumbers(styles) && p.themes != map[] && SheetFails(styles)
  {
    EveryThemeParsesUnlessFails(p, styles);
  }

  lemma EveryThemeParsesUnlessFails(p: Parser, styles: Value)
    ensures EveryThemeParses(p, styles) <==> p.themes == map[] || !SheetFails(styles)
  {
    if p.themes != map[] && SheetFails(styles) {
      var n :| n in p.themes;
      ParseThemeStylesFails(p.env, p.themes[n], styles);
    }
    if !SheetFails(styles) {
      forall n | n in p.themes
        ensures ParseThemeStyles(p.env, p.themes[n], styles).Some?
      {
        ParseThemeStylesFails(p.env, p.themes[n], styles);
      }
    }
  }

  /** No leaf of any block is a theme variable. */
  predicate NoVariables(styles: Value) {
    forall k :: k in Entries(styles) ==> !HasVariable(Entries(styles)[k])
  }

  lemma PlainBlockIsKept(env: Env, theme: Theme, block: Value)
    requires !HasVariable(block)
    ensures ParseStyle(env, theme, block) == Some(block)
  {
    if block.Obj? {
      forall k | k in block.fields
        ensures !IsThemeVariable(block.fields[k])
      {
        assert Str(k) in Entries(block);
      }
      assert ParseStyle(env, theme, block).value.fields == block.fields;
    } else if block.Arr? {
      forall i | 0 <= i < |block.elems|
        ensures !IsThemeVariable(block.elems[i])
      {
        assert Num(i) in Entries(block);
      }
      assert ParseStyle(env, theme, block).value.elems == block.elems;
    }
  }

  /** Without theme variables, parsing for any theme gives back the styles
      unchanged. */
  lemma PlainSheetIsKept(env: Env, theme: Theme, styles: Value)
    requires NoVariables(styles)
    ensures ParseThemeStyles(env, theme, styles) == Some(styles)
  {
    if styles.Obj? {
      forall k | k in styles.fields
        ensures ParseStyle(env, theme, styles.fields[k]) == Some(styles.fields[k])
      {
        assert Str(k) in Entries(styles);
        PlainBlockIsKept(env, theme, styles.fields[k]);
      }
      assert ParseThemeStyles(env, theme, styles).value.fields == styles.fields;
    } else if styles.Arr? {
      forall i | 0 <= i < |styles.elems|
        ensures ParseStyle(env, theme, styles.elems[i]) == Some(styles.elems[i])
      {
        assert Num(i) in Entries(styles);
        PlainBlockIsKept(env, theme, styles.elems[i]);
      }
      assert ParseThemeStyles(env, theme, styles).value.elems == styles.elems;
    }
  }

  /** Even though the shared branch is never taken, a sheet without theme
      variables gives every theme the same registered sheet,
      `create(styles)`, because `create` is deterministic. */
  lemma NoVariablesSameSheetForAllThemes(p: Parser, styles: Value)
    requires NoVariables(styles) && !AllNumbers(styles)
    ensures ParseStyles(p, styles).Some?
    ensures forall n :: n in p.themes ==> ParseStyles(p, styles).value.fields[n] == p.env.create(styles)
  {
    forall n | n in p.themes
      ensures ParseThemeStyles(p.env, p.themes[n], styles) == Some(styles)
    {
      PlainSheetIsKept(p.env, p.themes[n], styles);
    }
  }

  /** A created theme variable is recognised as one, and parsing replaces it
      by its resolver's value for the theme object (not the theme's name). */
  lemma CreatedVariableIsResolved(env: Env, theme: Theme, resolver: nat, args: seq<Value>)
    ensures IsThemeVariable(CreateThemeVariable(resolver, args))
    ensures ParseLeaf(env, theme, CreateThemeVariable(resolver, args)) == Some(env.resolve(resolver, theme, args))
  {
  }
}
