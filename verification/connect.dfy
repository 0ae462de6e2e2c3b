/** src/components/connect.js: `styled(styles, defaultProps, options)` and the
    decorator component it defines. One instance keeps the theme it renders
    with, a dirty flag, the last inputs and outputs of its style computation
    and the last element it rendered; React drives it through the lifecycle
    methods below. */
module Connect {
  import opened JsValues
  import opened ThemeVariables
  import opened FlattenStyleSheets

  /** The equality predicates the component borrows from its libraries
      (`equals`, `shallowEqual`, `styleEqual`, `shallowEqualArrays`), whose
      code is not part of this model. */
  datatype Library = Library(
    equals: (Value, Value) -> bool,
    shallowEqual: (map<string, Value>, map<string, Value>) -> bool,
    styleEqual: (Value, Value) -> bool,
    shallowEqualArrays: (seq<Value>, seq<Value>) -> bool)

  /** What every one of those predicates promises at least: a value equals
      itself. */
  ghost predicate Reflexive(lib: Library) {
    (forall v: Value :: lib.equals(v, v)) &&
    (forall m: map<string, Value> :: lib.shallowEqual(m, m)) &&
    (forall v: Value :: lib.styleEqual(v, v)) &&
    (forall s: seq<Value> :: lib.shallowEqualArrays(s, s))
  }

  /** `context.utils`: a style function with its dependency list. */
  datatype Utils = Utils(call: (map<string, Value>, Value) -> Value, props: seq<string>)

  /** The React context the provider passes down. */
  datatype Context = Context(theme: Value, utils: Utils, getTheme: Value -> Option<Theme>)

  /** The style function handed to `styled`, with its optional `props` list. */
  datatype StyleFunction = StyleFunction(call: (map<string, Value>, Value) -> Value, props: Option<seq<string>>)

  /** What the class defined by one `styled(...)` call closes over. */
  datatype Decorator = Decorator(styles: StyleFunction, pure: bool, version: nat)
  {
    /** `styles.props || []`. */
    function StyleProps(): seq<string> {
      if styles.props.Some? then styles.props.value else []
    }
  }

  /** The module-level `nextVersion` counter and the `styled` calls that
      advance it. */
  class Styler {
    var nextVersion: nat

    constructor()
      ensures nextVersion == 0
    {
      nextVersion := 0;
    }

    /** `styled(styles, defaultProps, { pure })`. */
    method Styled(styles: StyleFunction, pure: bool) returns (d: Decorator)
      modifies this
      ensures d == Decorator(styles, pure, old(nextVersion))
      ensures nextVersion == old(nextVersion) + 1
    {
      d := Decorator(styles, pure, nextVersion);
      nextVersion := nextVersion + 1;
    }
  }

  /** Two `styled` calls give their classes different versions, which is
      what lets an instance notice that its class was reloaded. */
  method StyledTwice(s: Styler, styles1: StyleFunction, styles2: StyleFunction, pure: bool)
      returns (d1: Decorator, d2: Decorator)
    modifies s
    ensures d1.version != d2.version
  {
    d1 := s.Styled(styles1, pure);
    d2 := s.Styled(styles2, pure);
  }

  /** The rendered element: an opaque token built from the merged props, told
      apart from another element by reference. */
  class Element {
    const props: Value

    constructor(props: Value)
      ensures this.props == props
    {
      this.props := props;
    }
  }

  /** `props[name]`. */
  function PropOf(props: map<string, Value>, name: string): Value {
    if name in props then props[name] else Undefined
  }

  /** JS `a || b`. */
  function Or(a: Value, b: Value): Value {
    if Truthy(a) then a else b
  }

  /** `pick(names, props)`. */
  function PickProps(names: seq<string>, props: map<string, Value>): (r: map<string, Value>)
    ensures forall k :: k in r <==> k in props && k in names
    ensures forall k :: k in r ==> r[k] == props[k]
  {
    map k | k in props && k in names :: props[k]
  }

  /** `omit(names, props)`. */
  function Omit(names: seq<string>, props: map<string, Value>): (r: map<string, Value>)
    ensures forall k :: k in r <==> k in props && k !in names
    ensures forall k :: k in r ==> r[k] == props[k]
  {
    map k | k in props && k !in names :: props[k]
  }

  /** `props.theme || context.theme || 'default'`. */
  function InitialTheme(props: map<string, Value>, context: Context): Value {
    Or(Or(PropOf(props, "theme"), context.theme), Str("default"))
  }

  /** The first theme that is set wins: the prop, then the context, then
      `'default'`; so an instance always starts with a truthy theme. */
  lemma InitialThemeChoice(props: map<string, Value>, context: Context)
    ensures Truthy(PropOf(props, "theme")) ==> InitialTheme(props, context) == props["theme"]
    ensures !Truthy(PropOf(props, "theme")) && Truthy(context.theme) ==> InitialTheme(props, context) == context.theme
    ensures !Truthy(PropOf(props, "theme")) && !Truthy(context.theme) ==> InitialTheme(props, context) == Str("default")
    ensures Truthy(InitialTheme(props, context))
  {
  }

  /** The conditions of `componentWillReceiveProps`, in its order. */
  predicate PropsChange(lib: Library, current: map<string, Value>, next: map<string, Value>) {
    var children := PropOf(current, "children");
    var nextChildren := PropOf(next, "children");
    var isChildrenArray := children.Arr? && nextChildren.Arr?;
    (isChildrenArray && !lib.shallowEqualArrays(children.elems, nextChildren.elems)) ||
    (!isChildrenArray && children != nextChildren) ||
    !lib.shallowEqual(Omit(["style", "styles", "children"], next), Omit(["style", "styles", "children"], current)) ||
    (Truthy(PropOf(next, "style")) && Truthy(PropOf(current, "style")) &&
      !lib.styleEqual(PropOf(next, "style"), PropOf(current, "style"))) ||
    (Truthy(PropOf(next, "styles")) && Truthy(PropOf(current, "styles")) &&
      !lib.styleEqual(PropOf(next, "styles"), PropOf(current, "styles")))
  }

  /** Receiving the very same props is no change. */
  lemma SamePropsAreNoChange(lib: Library, props: map<string, Value>)
    requires Reflexive(lib)
    ensures !PropsChange(lib, props, props)
  {
  }

  /** Adding a `style` where there was none is no change either: a style is
      compared only when both sides have one. */
  lemma AddedStyleIsNoChange(lib: Library, props: map<string, Value>, style: Value)
    requires Reflexive(lib) && !Truthy(PropOf(props, "style"))
    ensures !PropsChange(lib, props, props["style" := style])
  {
    var names := ["style", "styles", "children"];
    assert Omit(names, props["style" := style]) == Omit(names, props);
    assert PropOf(props["style" := style], "children") == PropOf(props, "children");
    assert PropOf(props["style" := style], "styles") == PropOf(props, "styles");
  }

  /** Replacing children that are not both arrays by different ones is a
      change, whatever else happens. */
  lemma NewChildrenAreChange(lib: Library, props: map<string, Value>, children: Value)
    requires !(PropOf(props, "children").Arr? && children.Arr?)
    requires PropOf(props, "children") != children
    ensures PropsChange(lib, props, props["children" := children])
  {
  }

  /** The theme `componentWillUpdate` adopts. */
  function NextTheme(current: Value, propTheme: Value, contextTheme: Value): Value {
    if propTheme != current && Truthy(propTheme) then propTheme
    else if !Truthy(propTheme) && contextTheme != current && Truthy(contextTheme) then contextTheme
    else current
  }

  /** The comparisons with the current theme do not matter: a truthy prop
      theme always wins, the context theme counts only when the prop theme is
      falsy, and otherwise the theme stays. */
  lemma NextThemeChoice(current: Value, propTheme: Value, contextTheme: Value)
    ensures Truthy(propTheme) ==> NextTheme(current, propTheme, contextTheme) == propTheme
    ensures !Truthy(propTheme) && Truthy(contextTheme) ==> NextTheme(current, propTheme, contextTheme) == contextTheme
    ensures !Truthy(propTheme) && !Truthy(contextTheme) ==> NextTheme(current, propTheme, contextTheme) == current
  {
  }

  /** The negation of `needsToUpdateStyles`' two early exits. */
  predicate StylesStale(lib: Library, styles: Value, last: Value, values: map<string, Value>) {
    !(values == map[] && Truthy(styles)) && !(!IsNil(styles) && lib.equals(last, Obj(values)))
  }

  /** The negation of `needsToUpdateUtilStyles`' two early exits. */
  predicate UtilsStale(lib: Library, utilStyles: Value, last: Value, values: map<string, Value>) {
    values != map[] && !(!IsNil(utilStyles) && lib.equals(last, Obj(values)))
  }

  /** Cleared styles are always recomputed; styles computed from the same
      picked values are not; util styles are never computed without util
      props. */
  lemma StalenessFacts(lib: Library, last: Value, styles: Value, values: map<string, Value>)
    ensures StylesStale(lib, Null, last, values)
    ensures Reflexive(lib) && !IsNil(styles) ==> !StylesStale(lib, styles, Obj(values), values)
    ensures Reflexive(lib) && !IsNil(styles) ==> !UtilsStale(lib, styles, Obj(values), values)
    ensures !UtilsStale(lib, styles, last, map[])
  {
  }

  /** `flattenStyleSheets([styles, utilStyles, propStyles])`. */
  function FlattenSheets(styles: Value, utilStyles: Value, propStyles: Value): map<string, Value> {
    Flatten([styles, utilStyles, propStyles])
  }

  /** The instance fields besides the props and the context React hands it,
      as one value. */
  datatype Fields = Fields(
    theme: Value,
    stylePropValues: Value,
    utilPropValues: Value,
    mergedProps: Value,
    styles: Value,
    utilStyles: Value,
    propStyles: Value,
    flattenedStyles: Value,
    renderedElement: Element?,
    havePropsChanged: bool,
    version: nat)

  /** `clearCache()`: every cache field emptied and the flag raised; the
      theme and the version are kept. */
  function Cleared(f: Fields): (g: Fields)
    ensures g.theme == f.theme && g.version == f.version
    ensures g.havePropsChanged && g.renderedElement == null
    ensures g.styles == Null && g.utilStyles == Null && g.propStyles == Null && g.flattenedStyles == Null
    ensures g.stylePropValues == Null && g.utilPropValues == Null && g.mergedProps == Null
  {
    f.(stylePropValues := Null, utilPropValues := Null, mergedProps := Null, styles := Null,
       utilStyles := Null, propStyles := Null, flattenedStyles := Null, renderedElement := null,
       havePropsChanged := true)
  }

  /** The values `updateStylesIfNeeded` picks from the props. */
  function StylePropValues(d: Decorator, props: map<string, Value>): map<string, Value> {
    PickProps(d.StyleProps(), props)
  }

  function UtilPropValues(context: Context, props: map<string, Value>): map<string, Value> {
    PickProps(context.utils.props, props)
  }

  /** Its three tests. */
  predicate NeedsStyles(d: Decorator, lib: Library, props: map<string, Value>, f: Fields) {
    StylesStale(lib, f.styles, f.stylePropValues, StylePropValues(d, props))
  }

  predicate NeedsUtils(lib: Library, props: map<string, Value>, context: Context, f: Fields) {
    UtilsStale(lib, f.utilStyles, f.utilPropValues, UtilPropValues(context, props))
  }

  predicate NeedsPropStyles(lib: Library, props: map<string, Value>, f: Fields) {
    !lib.equals(PropOf(props, "styles"), f.propStyles)
  }

  predicate AnyStale(d: Decorator, lib: Library, props: map<string, Value>, context: Context, f: Fields) {
    NeedsStyles(d, lib, props, f) || NeedsUtils(lib, props, context, f) || NeedsPropStyles(lib, props, f)
  }

  /** The sheets `updateStylesIfNeeded` leaves behind, each recomputed only
      when it is stale. */
  function NewStyles(d: Decorator, lib: Library, props: map<string, Value>, f: Fields): Value {
    if NeedsStyles(d, lib, props, f) then d.styles.call(StylePropValues(d, props), f.theme) else f.styles
  }

  function NewStylePropValues(d: Decorator, lib: Library, props: map<string, Value>, f: Fields): Value {
    if NeedsStyles(d, lib, props, f) then Obj(StylePropValues(d, props)) else f.stylePropValues
  }

  function NewUtilStyles(lib: Library, props: map<string, Value>, context: Context, f: Fields): Value {
    if NeedsUtils(lib, props, context, f) then context.utils.call(UtilPropValues(context, props), f.theme)
    else f.utilStyles
  }

  function NewUtilPropValues(lib: Library, props: map<string, Value>, context: Context, f: Fields): Value {
    if NeedsUtils(lib, props, context, f) then Obj(UtilPropValues(context, props)) else f.utilPropValues
  }

  function NewPropStyles(lib: Library, props: map<string, Value>, f: Fields): Value {
    if NeedsPropStyles(lib, props, f) then PropOf(props, "styles") else f.propStyles
  }

  /** The fields after `updateStylesIfNeeded` found something stale. */
  function Updated(d: Decorator, lib: Library, props: map<string, Value>, context: Context, f: Fields): (g: Fields)
    ensures g.flattenedStyles == Obj(FlattenSheets(g.styles, g.utilStyles, g.propStyles))
  {
    var styles := NewStyles(d, lib, props, f);
    var utilStyles := NewUtilStyles(lib, props, context, f);
    var propStyles := NewPropStyles(lib, props, f);
    f.(styles := styles,
       stylePropValues := NewStylePropValues(d, lib, props, f),
       utilStyles := utilStyles,
       utilPropValues := NewUtilPropValues(lib, props, context, f),
       propStyles := propStyles,
       flattenedStyles := Obj(FlattenSheets(styles, utilStyles, propStyles)))
  }

  /** Only the stale parts are recomputed, each from the current props and
      theme; the theme, the merged props, the element, the flag and the
      version are untouched. */
  lemma UpdatedRefreshesStaleParts(d: Decorator, lib: Library, props: map<string, Value>, context: Context, f: Fields)
    ensures var g := Updated(d, lib, props, context, f);
      (NeedsStyles(d, lib, props, f) ==>
         g.styles == d.styles.call(StylePropValues(d, props), f.theme) &&
         g.stylePropValues == Obj(StylePropValues(d, props))) &&
      (!NeedsStyles(d, lib, props, f) ==> g.styles == f.styles && g.stylePropValues == f.stylePropValues) &&
      (NeedsUtils(lib, props, context, f) ==>
         g.utilStyles == context.utils.call(UtilPropValues(context, props), f.theme) &&
         g.utilPropValues == Obj(UtilPropValues(context, props))) &&
      (!NeedsUtils(lib, props, context, f) ==> g.utilStyles == f.utilStyles && g.utilPropValues == f.utilPropValues) &&
      (NeedsPropStyles(lib, props, f) ==> g.propStyles == PropOf(props, "styles")) &&
      (!NeedsPropStyles(lib, props, f) ==> g.propStyles == f.propStyles) &&
      g.theme == f.theme && g.mergedProps == f.mergedProps &&
      g.renderedElement == f.renderedElement && g.havePropsChanged == f.havePropsChanged && g.version == f.version
  {
  }

  /** Once the styles are brought up to date, asking again with the same
      props finds nothing stale, provided the style functions gave non-nil
      sheets: a second render does no style work. */
  lemma UpdateSettles(d: Decorator, lib: Library, props: map<string, Value>, context: Context, f: Fields)
    requires Reflexive(lib)
    requires NeedsStyles(d, lib, props, f) ==> !IsNil(d.styles.call(StylePropValues(d, props), f.theme))
    requires NeedsUtils(lib, props, context, f) ==> !IsNil(context.utils.call(UtilPropValues(context, props), f.theme))
    ensures !AnyStale(d, lib, props, context, Updated(d, lib, props, context, f))
  {
  }

  /** After the cache is cleared the styles are stale whatever the props, so
      the next render recomputes them and builds a new element. */
  lemma ClearedIsStale(d: Decorator, lib: Library, props: map<string, Value>, context: Context, f: Fields)
    ensures AnyStale(d, lib, props, context, Cleared(f))
    ensures AnyStale(d, lib, props, context, Cleared(f).(havePropsChanged := false))
  {
  }

  /** The props `updateMergedProps` hands to the wrapped component: the
      flattened styles, the theme and `getColor`, overridden by the props
      other than `styles` and the util props. */
  function MergedPropsOf(getColor: Value, props: map<string, Value>, context: Context, f: Fields): map<string, Value> {
    map["styles" := f.flattenedStyles, "theme" := f.theme, "getColor" := getColor] +
    Omit(context.utils.props, props - {"styles"})
  }

  /** What the wrapped component receives: the flattened styles always, the
      props it was given except the util props, and the instance's theme and
      `getColor` unless a prop of that name overrides them. */
  lemma MergedPropsContent(getColor: Value, props: map<string, Value>, context: Context, f: Fields, k: string)
    ensures MergedPropsOf(getColor, props, context, f)["styles"] == f.flattenedStyles
    ensures k in props && k != "styles" && k !in context.utils.props ==>
      MergedPropsOf(getColor, props, context, f)[k] == props[k]
    ensures k !in props || k in context.utils.props ==>
      (k in MergedPropsOf(getColor, props, context, f) <==> k == "styles" || k == "theme" || k == "getColor")
    ensures "theme" !in props || "theme" in context.utils.props ==>
      MergedPropsOf(getColor, props, context, f)["theme"] == f.theme
  {
  }

  /** One instance of the decorator component. */
  class StyledComponent {
    const decorator: Decorator
    const lib: Library
    /** The instance's bound `getColor` arrow function. */
    const getColorFn: Value

    var props: map<string, Value>
    var context: Context
    var theme: Value
    var stylePropValues: Value
    var utilPropValues: Value
    var mergedProps: Value
    var styles: Value
    var utilStyles: Value
    var propStyles: Value
    var flattenedStyles: Value
    var renderedElement: Element?
    var havePropsChanged: bool
    var version: nat

    ghost function State(): Fields
      reads this
    {
      Fields(theme, stylePropValues, utilPropValues, mergedProps, styles,
             utilStyles, propStyles, flattenedStyles, renderedElement, havePropsChanged, version)
    }

    /** The flattened styles are either cleared or the flattening of the
        three sheets they came from, and a rendered element carries the
        current merged props. */
    ghost predicate Valid()
      reads this
    {
      (flattenedStyles == Null || flattenedStyles == Obj(FlattenSheets(styles, utilStyles, propStyles))) &&
      (renderedElement != null ==> renderedElement.props == mergedProps)
    }

    constructor(decorator: Decorator, lib: Library, getColorFn: Value, props: map<string, Value>, context: Context)
      ensures Valid()
      ensures this.decorator == decorator && this.lib == lib && this.getColorFn == getColorFn
      ensures this.props == props && this.context == context
      ensures State() == Fields(InitialTheme(props, context), Null, Null, Null, Null,
                                Null, Null, Null, null, false, decorator.version)
    {
      this.decorator := decorator;
      this.lib := lib;
      this.getColorFn := getColorFn;
      this.props := props;
      this.context := context;
      stylePropValues := Null;
      utilPropValues := Null;
      mergedProps := Null;
      styles := Null;
      utilStyles := Null;
      propStyles := Null;
      flattenedStyles := Null;
      renderedElement := null;
      version := decorator.version;
      theme := Or(Or(PropOf(props, "theme"), context.theme), Str("default"));
      havePropsChanged := false;
    }

    /** `shouldComponentUpdate()`. */
    predicate ShouldComponentUpdate()
      reads this
    {
      !decorator.pure || havePropsChanged
    }

    /** `componentWillReceiveProps(nextProps)`: the flag can be raised, never
        lowered. */
    method ComponentWillReceiveProps(nextProps: map<string, Value>)
      requires Valid()
      modifies this`havePropsChanged
      ensures Valid()
      ensures State() == old(State()).(havePropsChanged := old(havePropsChanged) || PropsChange(lib, props, nextProps))
      ensures old(havePropsChanged) ==> havePropsChanged
      ensures PropsChange(lib, props, nextProps) ==> ShouldComponentUpdate()
    {
      var children := PropOf(props, "children");
      var nextChildren := PropOf(nextProps, "children");
      var isChildrenArray := children.Arr? && nextChildren.Arr?;
      if isChildrenArray && !lib.shallowEqualArrays(children.elems, nextChildren.elems) {
        havePropsChanged := true;
        return;
      }
      if !isChildrenArray && children != nextChildren {
        havePropsChanged := true;
        return;
      }
      var names := ["style", "styles", "children"];
      if !lib.shallowEqual(Omit(names, nextProps), Omit(names, props)) {
        havePropsChanged := true;
        return;
      }
      var style := PropOf(props, "style");
      var nextStyle := PropOf(nextProps, "style");
      if Truthy(nextStyle) && Truthy(style) && !lib.styleEqual(nextStyle, style) {
        havePropsChanged := true;
        return;
      }
      var sheets := PropOf(props, "styles");
      var nextSheets := PropOf(nextProps, "styles");
      if Truthy(nextSheets) && Truthy(sheets) && !lib.styleEqual(nextSheets, sheets) {
        havePropsChanged := true;
      }
    }

    /** `clearCache()`. */
    method ClearCache()
      modifies this`stylePropValues, this`utilPropValues, this`mergedProps, this`styles, this`utilStyles,
               this`propStyles, this`flattenedStyles, this`renderedElement, this`havePropsChanged
      ensures Valid()
      ensures State() == Cleared(old(State()))
    {
      stylePropValues := Null;
      utilPropValues := Null;
      mergedProps := Null;
      styles := Null;
      utilStyles := Null;
      propStyles := Null;
      flattenedStyles := Null;
      renderedElement := null;
      havePropsChanged := true;
    }

    /** `clearCacheIfHotReloaded()`, where `current` is the version of the
        class whose code now runs. */
    method ClearCacheIfHotReloaded(current: nat)
      requires Valid()
      modifies this`stylePropValues, this`utilPropValues, this`mergedProps, this`styles, this`utilStyles,
               this`propStyles, this`flattenedStyles, this`renderedElement, this`havePropsChanged, this`version
      ensures Valid()
      ensures version == current
      ensures old(version) == current ==> State() == old(State())
      ensures old(version) != current ==> State() == Cleared(old(State())).(version := current)
    {
      if version == current {
        return;
      }
      version := current;
      ClearCache();
    }

    /** `componentWillUpdate(nextProps, nextState, nextContext)`; the
        hot-reload check runs only outside production. */
    method ComponentWillUpdate(nextProps: map<string, Value>, nextContext: Context, production: bool, current: nat)
      requires Valid()
      modifies this`stylePropValues, this`utilPropValues, this`mergedProps, this`styles, this`utilStyles,
               this`propStyles, this`flattenedStyles, this`renderedElement, this`havePropsChanged, this`version,
               this`theme
      ensures Valid()
      ensures var f := if !production && old(version) != current then Cleared(old(State())).(version := current) else old(State());
        State() == f.(theme := NextTheme(old(theme), PropOf(nextProps, "theme"), nextContext.theme))
    {
      if !production {
        ClearCacheIfHotReloaded(current);
      }
      var propTheme := PropOf(nextProps, "theme");
      if propTheme != theme && Truthy(propTheme) {
        theme := propTheme;
        return;
      }
      if !Truthy(propTheme) && nextContext.theme != theme && Truthy(nextContext.theme) {
        theme := nextContext.theme;
      }
    }

    /** `componentWillUnmount()`. */
    method ComponentWillUnmount()
      modifies this`stylePropValues, this`utilPropValues, this`mergedProps, this`styles, this`utilStyles,
               this`propStyles, this`flattenedStyles, this`renderedElement, this`havePropsChanged
      ensures Valid()
      ensures State() == Cleared(old(State()))
    {
      ClearCache();
    }

    /** React sets `props` and `context` before it renders an update. */
    method CommitProps(nextProps: map<string, Value>, nextContext: Context)
      requires Valid()
      modifies this`props, this`context
      ensures Valid()
      ensures props == nextProps && context == nextContext
      ensures State() == old(State())
    {
      props := nextProps;
      context := nextContext;
    }

    /** `needsToUpdateStyles(stylePropValues)`. */
    method NeedsToUpdateStyles(values: map<string, Value>) returns (r: bool)
      ensures r == StylesStale(lib, styles, stylePropValues, values)
    {
      if values == map[] && Truthy(styles) {
        return false;
      }
      if !IsNil(styles) && lib.equals(stylePropValues, Obj(values)) {
        return false;
      }
      return true;
    }

    /** `needsToUpdateUtilStyles(utilPropValues)`. */
    method NeedsToUpdateUtilStyles(values: map<string, Value>) returns (r: bool)
      ensures r == UtilsStale(lib, utilStyles, utilPropValues, values)
    {
      if values == map[] {
        return false;
      }
      if !IsNil(utilStyles) && lib.equals(utilPropValues, Obj(values)) {
        return false;
      }
      return true;
    }

    /** `updateStylesIfNeeded()`: false and nothing changed when nothing is
        stale, otherwise the stale parts recomputed and flattened again. */
    method UpdateStylesIfNeeded() returns (changed: bool)
      requires Valid()
      modifies this`styles, this`stylePropValues, this`utilStyles, this`utilPropValues,
               this`propStyles, this`flattenedStyles
      ensures Valid()
      ensures changed == AnyStale(decorator, lib, props, context, old(State()))
      ensures !changed ==> State() == old(State())
      ensures changed ==> State() == Updated(decorator, lib, props, context, old(State()))
    {
      var spv := PickProps(decorator.StyleProps(), props);
      var upv := PickProps(context.utils.props, props);
      var sheets := PropOf(props, "styles");
      var needsStyles := NeedsToUpdateStyles(spv);
      var needsUtils := NeedsToUpdateUtilStyles(upv);
      var needsPropStyles := !lib.equals(sheets, propStyles);
      if !needsStyles && !needsUtils && !needsPropStyles {
        return false;
      }
      Refresh(needsStyles, needsUtils, needsPropStyles, spv, upv, sheets);
      return true;
    }

    /** The second half of `updateStylesIfNeeded()`: the parts found stale
        are recomputed with the current theme, then all three flattened. */
    method Refresh(needsStyles: bool, needsUtils: bool, needsPropStyles: bool,
                   spv: map<string, Value>, upv: map<string, Value>, sheets: Value)
      modifies this`styles, this`stylePropValues, this`utilStyles, this`utilPropValues,
               this`propStyles, this`flattenedStyles
      ensures State() == old(State()).(
        styles := if needsStyles then decorator.styles.call(spv, theme) else old(styles),
        stylePropValues := if needsStyles then Obj(spv) else old(stylePropValues),
        utilStyles := if needsUtils then context.utils.call(upv, theme) else old(utilStyles),
        utilPropValues := if needsUtils then Obj(upv) else old(utilPropValues),
        propStyles := if needsPropStyles then sheets else old(propStyles),
        flattenedStyles := Obj(FlattenSheets(styles, utilStyles, propStyles)))
    {
      if needsStyles {
        styles := decorator.styles.call(spv, theme);
        stylePropValues := Obj(spv);
      }
      if needsUtils {
        utilStyles := context.utils.call(upv, theme);
        utilPropValues := Obj(upv);
      }
      if needsPropStyles {
        propStyles := sheets;
      }
      flattenedStyles := Obj(FlattenSheets(styles, utilStyles, propStyles));
    }

    /** `updateMergedProps()`. */
    method UpdateMergedProps()
      modifies this`mergedProps
      ensures State() == old(State()).(mergedProps := Obj(MergedPropsOf(getColorFn, props, context, old(State()))))
    {
      mergedProps := Obj(map["styles" := flattenedStyles, "theme" := theme, "getColor" := getColorFn] +
                         Omit(context.utils.props, props - {"styles"}));
    }

    /** `getColor(...args)`: asks the theme the instance renders with at the
        time of the call; nothing when the provider has no such theme. */
    function GetColor(args: seq<string>): (r: Option<string>)
      reads this
      ensures context.getTheme(theme).None? ==> r.None?
      ensures context.getTheme(theme).Some? ==> r == context.getTheme(theme).value.getColor(args)
    {
      match context.getTheme(theme)
      case None => None
      case Some(t) => t.getColor(args)
    }

    /** `render()`: the flag is lowered, the styles brought up to date, the
        merged props rebuilt when styles or props changed, and the previous
        element returned as is when neither did. */
    method Render() returns (e: Element)
      requires Valid()
      modifies this`styles, this`stylePropValues, this`utilStyles, this`utilPropValues,
               this`propStyles, this`flattenedStyles, this`mergedProps, this`renderedElement, this`havePropsChanged
      ensures Valid()
      ensures renderedElement == e && e.props == mergedProps
      ensures !havePropsChanged && (decorator.pure ==> !ShouldComponentUpdate())
      ensures var f := old(State()).(havePropsChanged := false);
        var stale := AnyStale(decorator, lib, props, context, f);
        var u := if stale then Updated(decorator, lib, props, context, f) else f;
        var m := if stale || old(havePropsChanged) then Obj(MergedPropsOf(getColorFn, props, context, u)) else f.mergedProps;
        State() == u.(mergedProps := m, renderedElement := e)
      ensures !AnyStale(decorator, lib, props, context, old(State()).(havePropsChanged := false)) &&
              !old(havePropsChanged) && old(renderedElement) != null ==>
        e == old(renderedElement)
      ensures AnyStale(decorator, lib, props, context, old(State()).(havePropsChanged := false)) ||
              old(havePropsChanged) || old(renderedElement) == null ==>
        fresh(e)
    {
      var prevChanged := havePropsChanged;
      havePropsChanged := false;
      var changed := UpdateStylesIfNeeded();
      e := RenderElement(changed || prevChanged);
    }

    /** The second half of `render()`: the merged props rebuilt when asked,
        and the element kept unless they were or there is none yet. */
    method RenderElement(rebuild: bool) returns (e: Element)
      requires Valid()
      modifies this`mergedProps, this`renderedElement
      ensures Valid()
      ensures renderedElement == e && e.props == mergedProps
      ensures State() == old(State()).(
        mergedProps := if rebuild then Obj(MergedPropsOf(getColorFn, props, context, old(State()))) else old(mergedProps),
        renderedElement := e)
      ensures !rebuild && old(renderedElement) != null ==> e == old(renderedElement)
      ensures rebuild || old(renderedElement) == null ==> fresh(e)
    {
      if rebuild {
        UpdateMergedProps();
      } else if renderedElement != null {
        return renderedElement;
      }
      e := new Element(mergedProps);
      renderedElement := e;
    }
  }

  /** Rendering again with nothing new in between returns the very element
      rendered before, provided the equality predicates are reflexive and the
      style functions give non-nil sheets: the second render recomputes
      nothing. */
  method RenderTwice(c: StyledComponent) returns (e1: Element, e2: Element)
    requires c.Valid() && Reflexive(c.lib)
    requires forall v, t :: !IsNil(c.decorator.styles.call(v, t))
    requires forall v, t :: !IsNil(c.context.utils.call(v, t))
    modifies c`styles, c`stylePropValues, c`utilStyles, c`utilPropValues,
             c`propStyles, c`flattenedStyles, c`mergedProps, c`renderedElement, c`havePropsChanged
    ensures e2 == e1
  {
    e1 := c.Render();
    UpdateSettles(c.decorator, c.lib, c.props, c.context, old(c.State()).(havePropsChanged := false));
    e2 := c.Render();
  }

  /** A pure component whose props stay the same does not update when only
      the context's theme changes: the flag stays lowered, so
      `componentWillUpdate` never runs and the theme is not adopted. */
  method ContextThemeAloneIsIgnored(c: StyledComponent, nextContext: Context)
    requires c.Valid() && Reflexive(c.lib)
    requires c.decorator.pure && !c.havePropsChanged
    modifies c`havePropsChanged, c`props, c`context
    ensures c.context == nextContext
    ensures !c.ShouldComponentUpdate()
    ensures c.theme == old(c.theme)
  {
    c.ComponentWillReceiveProps(c.props);
    SamePropsAreNoChange(c.lib, c.props);
    c.CommitProps(c.props, nextContext);
  }
}
