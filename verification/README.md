# react-native-styleable, modelled in Dafny

This project models the style-composition engine of the React Native theming
library `react-native-styleable`, and proves properties of the model. The
engine has six parts:

- **Flattening** (`flatten_stylesheets.dfy`, module `FlattenStyleSheets`).
  `flattenStyleSheets(sources)` splices nested lists and drops falsy
  entries. It then folds the sources left to right with `R.mergeWith`. A key
  held by two sources becomes a React Native style array: two arrays are
  unioned, an array and a scalar get the scalar appended, and two scalars
  become `[left, right]`.
- **Theme variables** (`theme_variables.dfy`, module `ThemeVariables`).
  `createThemeVariable(resolver)(...args)` returns a closure marked
  `variable = true`. The closure is kept as data: the resolver it calls and
  the arguments it captured. The host's `StyleSheet.create` and the user's
  resolvers are an `Env` of functions given to the model.
- **Parsing** (`parse.dfy`, module `Parse`). `createStylesParser(themes)`
  turns a two-level style object into one registered sheet per theme. It
  replaces every theme variable by the variable applied to that theme's
  object.
- **Style creators** (`style_creators.dfy`, module `StyleCreators`).
  `component`, `modifier`, `boolModifier` and `util` check their argument and
  return a lookup `(props, theme) => sheet`, tagged with a dependency list.
  Each lookup is a `StyleCreator` value; `Eval` is the lookup and
  `Dependencies` the tag.
- **Combining** (`combine_styles.dfy`, module `CombineStyles`).
  `combineStyles(...creators)` partitions the creators and indexes the
  prop-dependent ones by their first dependency. It returns a
  `createStyles(props, theme)` whose work is memoised on the non-nil props and
  the theme. The memo table is the map field of the class `CombinedStyles`.
  Its invariant says every stored result is what the computation would give
  now.
- **The decorator component** (`connect.dfy`, module `Connect`).
  `styled(...)` defines a component class, which is modelled as the class
  `StyledComponent`. Its fields are the theme, the dirty flag
  `havePropsChanged`, the cached inputs and outputs of the style computation,
  the merged props, the last rendered element and the hot-reload version. The
  lifecycle methods update those fields in place. Each method's contract
  states the whole new state as a function of the old one. The specification
  functions are `Cleared`, `Updated`, `NextTheme` and `MergedPropsOf`, and
  lemmas state what those functions promise.

`js_values.dfy` (module `JsValues`) holds the JavaScript values the engine
handles and the few Ramda primitives it relies on.

### Behaviour of the code as written

- `src/utils/flatten-stylesheets.js:24` calls `R.filter(identity)`, but
  `identity` is never imported or defined in that file. As written, building
  the top-level `R.compose(...)` evaluates the unbound name and throws a
  `ReferenceError` when the module is loaded, so `flattenStyleSheets` never
  exists. The model implements only the evident intent, which is to drop
  falsy entries (`Compact`).
- `hasThemeDependencies` (`src/utils/parse.js:11-19`) returns one flag per
  block, as an array. Every array is truthy, so the test at
  `src/utils/parse.js:54` never succeeds, and the shared-sheet branch at lines
  55-57 is dead. The model keeps the test, `!Truthy(HasThemeDependencies(styles))`;
  `ThemeTestNeverFalse` shows it never holds, and `FlagsRecordVariables`
  shows the flags themselves are right. `NoVariablesSameSheetForAllThemes` shows the observable result is
  unaffected: because `create` is deterministic, a sheet without variables
  still gives every theme the same registered sheet.
- The class field initialiser sets `havePropsChanged = true`, but the
  constructor sets it back to `false` (`src/components/connect.js:95`). A
  fresh pure instance therefore reports that it should not update until new
  props arrive.
- The memo key of `createStyles` covers every non-nil prop, not only the
  declared dependencies. `IrrelevantPropDoesNotMatter` and
  `NonNilPropIsKeyed` show that a prop no creator reads leaves the styles
  unchanged but still opens a cache entry of its own.
- Under `pure = true`, the default, a theme change that arrives only through
  the context, with the props unchanged, is never adopted. The flag stays
  lowered, so `shouldComponentUpdate` is false and `componentWillUpdate`
  (`src/components/connect.js:162-166`) does not run
  (`ContextThemeAloneIsIgnored`).
- `updateMergedProps` spreads the props after `styles`, `theme` and
  `getColor`, so a prop named `theme` or `getColor` overrides the instance's
  own (`MergedPropsContent`).
- The conflict rule is not associative (`MergeIsNotAssociative`). The fold
  order matters: merging `1, 2, [3]` from the left gives `[1, 2, 3]`, and
  merging from the right gives `[3, 2, 1]`.

## Model

| member | source | states |
|---|---|---|
| JsValues.Get | src/create-style-creators.js:56-59 | Looking up a name in an object gives its value or undefined; an array is indexed by a number or its decimal text (`ArrayIndex`), anything else gives undefined; looking into null or undefined gives undefined |
| JsValues.ArrayIndex | src/create-style-creators.js:56-59 | A number in range denotes itself; a string denotes the index whose decimal text it is, if any; other keys denote no index |
| JsValues.ArrayIndexOfText | src/create-style-creators.js:56-59 | The decimal text of an index denotes that index (`xs["1"]` is `xs[1]`) |
| JsValues.NatToStringInjective | src/create-style-creators.js:56-59 | Different indexes have different decimal texts, so a text denotes at most one index |
| JsValues.Values | src/utils/parse.js:15-18 | `R.values` of an array is its elements, of an object one value per field, of a primitive nothing |
| JsValues.ValuesAreEntries | src/utils/parse.js:15-18 | `R.values` lists exactly the values of the own enumerable properties |
| JsValues.MapValues | src/utils/parse.js:36-37 | `R.map` keeps an object's keys and an array's length and maps every element; it fails exactly when some element's step fails; other values are kept |
| JsValues.Entries | src/utils/parse.js:50 | The values `R.values` lists: an object's fields under their names, an array's elements under their indexes, nothing for a primitive |
| JsValues.Lookup | src/create-style-creators.js:57 | `props[name]` is the value of the first entry with that name, and undefined when there is none |
| ThemeVariables.CreateThemeVariable | src/create-theme-variable.js:2-10 | The result is a marked closure whose `variable` flag reads true, and it records the resolver and the arguments without calling the resolver |
| ThemeVariables.ResolveCreated | src/create-theme-variable.js:3-5 | Calling a created variable with a theme gives `resolver(theme, ...args)`, with the captured arguments in their order |
| Parse.ParseStyle | src/utils/parse.js:22-33 | An object or array block keeps its keys or length. Each leaf (`ParseLeaf`) is kept, except a theme variable (`IsThemeVariable`), which is replaced by its value for the theme. A marked non-closure makes it fail |
| Parse.ParseThemeStyles | src/utils/parse.js:36-37 | `parseStyle(theme)` is applied to every block, keys and order kept; it fails exactly when some block fails |
| Parse.HasThemeDependencies | src/utils/parse.js:11-19 | An array, not a Boolean, with one flag per value `R.values` lists, each the result of `R.any(isThemeVariable)` on that block |
| Parse.ThemeTestNeverFalse | src/utils/parse.js:54 | The result is always truthy, so `!hasThemeDependencies(styles)` never holds |
| Parse.FlagsRecordVariables | src/utils/parse.js:11-19 | Some flag is true exactly when some block holds a theme variable |
| Parse.CreateSharedStyles | src/utils/parse.js:43-46 | Every theme name maps to the same sheet, and nothing else is a key |
| Parse.ParseStyles | src/utils/parse.js:39-66 | The result's keys are exactly the theme names. When every block is a number, each theme gets the styles unchanged. Otherwise theme N gets `create(parseThemeStyles(themes[N], styles))`, and parsing fails exactly when some theme fails |
| Parse.ParseStyleFails | src/utils/parse.js:22-33 | A block fails to parse, for any theme, exactly when it is an object or array holding a marked value that is not a closure |
| Parse.ArrayBlockFails | src/utils/parse.js:22-33 | An array block fails exactly when one of its elements is a marked non-closure |
| Parse.ObjectBlockFails | src/utils/parse.js:22-33 | An object block fails exactly when one of its properties is a marked non-closure |
| Parse.ParseThemeStylesFails | src/utils/parse.js:36-37 | A sheet fails to parse exactly when one of its blocks fails |
| Parse.ArraySheetFails | src/utils/parse.js:36-37 | An array of blocks fails exactly when one of its blocks fails |
| Parse.ObjectSheetFails | src/utils/parse.js:36-37 | An object of blocks fails exactly when one of its blocks fails |
| Parse.EveryThemeParsesUnlessFails | src/utils/parse.js:60-63 | Every theme parses exactly when there is no theme or no block fails; which theme is parsed does not matter |
| Parse.ParseStylesFails | src/utils/parse.js:48-65 | The parser throws exactly when some block is not a number, there is a theme, and a block holds a marked non-closure |
| Parse.PlainBlockIsKept | src/utils/parse.js:22-33 | A block without theme variables parses to itself |
| Parse.PlainSheetIsKept | src/utils/parse.js:36-37 | A sheet without theme variables parses to itself for any theme |
| Parse.NoVariablesSameSheetForAllThemes | src/utils/parse.js:54-63 | Without theme variables, every theme gets `create(styles)`, the same sheet |
| Parse.CreatedVariableIsResolved | src/utils/parse.js:5-33 | A created variable counts as a theme variable (`IsThemeVariable`), and the leaf step `ParseLeaf` replaces it by its resolver's value for the theme object |
| StyleCreators.CheckObject | src/create-style-creators.js:18-20 | `invariant` throws its message exactly when the styles are not an Object |
| StyleCreators.Component | src/create-style-creators.js:17-25 | A non-object fails with the component message. Otherwise it fails exactly when parsing fails, and success is a lookup with no dependency list |
| StyleCreators.Modifier | src/create-style-creators.js:49-64 | A non-object fails with the modifier message. An object or an array fails exactly when some variant fails to parse, and success depends on `[name]` |
| StyleCreators.BoolModifier | src/create-style-creators.js:72-96 | A non-object fails with the boolModifier message. Otherwise it fails exactly when parsing fails, and success depends on `[name]` |
| StyleCreators.Util | src/create-style-creators.js:117-131 | Fails exactly when the styles are not an Object, with the util message; otherwise it registers the styles once and depends on `[name]` |
| StyleCreators.CreateStyleCreators | src/create-style-creators.js:133-143 | One parser, built from the given themes and host, behind the constructors |
| StyleCreators.ComponentLookup | src/create-style-creators.js:24 | A component's lookup (`StyleCreator.Eval`) ignores the props and gives the parsed sheet of a known theme, or undefined for an unknown one |
| StyleCreators.ModifierLookup | src/create-style-creators.js:54-59 | A modifier's `StyleCreator.Eval` gives `parsed[props[name]][theme]`, or undefined when the variant or the theme is missing |
| StyleCreators.ModifierArrayLookup | src/create-style-creators.js:54-59 | A modifier over an array of variants picks the variant whose position `props[name]` names, as a number or as its decimal text |
| StyleCreators.BoolModifierLookup | src/create-style-creators.js:80-91 | A bool modifier gives nothing while `props[name]` is falsy, and `parsed[theme]` once it is truthy |
| StyleCreators.UtilLookup | src/create-style-creators.js:122-126 | A util ignores the theme and gives `{utils: created[props[name]]}` |
| StyleCreators.DependenciesOfCreators | src/create-style-creators.js:61-128 | Only a component lacks a dependency list; the others depend on exactly `[name]` |
| StyleCreators.SharedParser | src/create-style-creators.js:133-139 | A component made through the set gives, for each of the set's themes, the sheet created from the styles parsed against that theme |
| StyleCreators.EvalReadsOnlyDependency | src/create-style-creators.js:56-126 | A lookup reads the props only through its dependency: props that agree on it give the same styles |
| FlattenStyleSheets.DeepFlatten | src/utils/flatten-stylesheets.js:25 | `R.flatten` leaves no nested list |
| FlattenStyleSheets.Compact | src/utils/flatten-stylesheets.js:24 | Exactly the truthy entries remain; a list of truthy entries is unchanged |
| FlattenStyleSheets.DeepFlattenAppend | src/utils/flatten-stylesheets.js:25 | Flattening a concatenation concatenates the flattenings, so order is kept |
| FlattenStyleSheets.DeepFlattenSplices | src/utils/flatten-stylesheets.js:25 | A flat list is kept, and a nested list is spliced in at its own position |
| FlattenStyleSheets.FlatIsKept | src/utils/flatten-stylesheets.js:25 | A list without nested lists is unchanged by `R.flatten` |
| FlattenStyleSheets.CompactAppend | src/utils/flatten-stylesheets.js:24 | Dropping falsy entries commutes with concatenation, so order is kept |
| FlattenStyleSheets.Uniq | src/utils/flatten-stylesheets.js:8 | No duplicates remain and the same elements are present |
| FlattenStyleSheets.UniqOfDistinct | src/utils/flatten-stylesheets.js:8 | A list without duplicates is its own `uniq` |
| FlattenStyleSheets.UniqPrefix | src/utils/flatten-stylesheets.js:8 | `uniq` of a list starts with `uniq` of any prefix of it |
| FlattenStyleSheets.Union | src/utils/flatten-stylesheets.js:7-9 | `R.union` is `uniq` of the concatenation: the elements of both lists without duplicates, `uniq` of the left list first (the left list itself when it has no duplicates) |
| FlattenStyleSheets.UnionOfNothing | src/utils/flatten-stylesheets.js:7-9 | With an empty right list, `R.union` is `uniq` of the left list |
| FlattenStyleSheets.UnionExtends | src/utils/flatten-stylesheets.js:7-9 | The new right elements follow in their own order: extending the right list by an element already present changes nothing, by a new one appends it |
| FlattenStyleSheets.MergeKeepsFirstOccurrences | src/utils/flatten-stylesheets.js:7-9 | `[1]` and `[3, 2]` merge to `[1, 3, 2]`; `[1, 1]` and `[2]` merge to `[1, 2]` |
| FlattenStyleSheets.MergeValues | src/utils/flatten-stylesheets.js:6-20 | A conflict always gives a style array. Two arrays give their `Union`, so in first-occurrence order with no duplicates. An array on the left gets the right value appended, and an array on the right gets the left value appended. Two other values give `[left, right]` |
| FlattenStyleSheets.MergeWith | src/utils/flatten-stylesheets.js:5 | The merged object's keys are the keys of both |
| FlattenStyleSheets.FlattenOfNothing | src/utils/flatten-stylesheets.js:22-24 | Flattening only falsy entries, the empty list included, gives `{}` |
| FlattenStyleSheets.NothingSurvives | src/utils/flatten-stylesheets.js:24-25 | Falsy entries leave no source for the fold |
| FlattenStyleSheets.FoldKeys | src/utils/flatten-stylesheets.js:4-5 | The keys of the fold `FoldMerge` are the accumulator's keys plus every source's keys |
| FlattenStyleSheets.FlattenKeys | src/utils/flatten-stylesheets.js:3-26 | The keys of `Flatten` (the fold over the spliced, truthy sources) are the union of the sources' keys |
| FlattenStyleSheets.KeysOfAllMember | src/utils/flatten-stylesheets.js:4-5 | A key is among the sources' keys exactly when some source holds it |
| FlattenStyleSheets.FoldUntouched | src/utils/flatten-stylesheets.js:4-5 | A key no later source holds keeps its accumulated value |
| FlattenStyleSheets.FoldSingleSource | src/utils/flatten-stylesheets.js:4-5 | A key held by exactly one source keeps that source's value |
| FlattenStyleSheets.FlattenSingleSource | src/utils/flatten-stylesheets.js:3-26 | In the flattened result, a key held by exactly one source has that source's value |
| FlattenStyleSheets.FlattenTwo | src/utils/flatten-stylesheets.js:4-20 | Of two style objects, a shared key is merged by the conflict rule and a key of one is copied |
| FlattenStyleSheets.MergeIsNotAssociative | src/utils/flatten-stylesheets.js:6-20 | Merging `1, 2, [3]` from the left gives `[1, 2, 3]`, and from the right gives `[3, 2, 1]` |
| CombineStyles.Independent | src/utils/combine-styles.js:17-20 | Only creators without a dependency list, all taken from the arguments |
| CombineStyles.Dependent | src/utils/combine-styles.js:17-20 | Only creators with a dependency list, all taken from the arguments |
| CombineStyles.PartitionIsPermutation | src/utils/combine-styles.js:17-20 | The two halves together are a permutation of the creators |
| CombineStyles.PartitionKeepsOrder | src/utils/combine-styles.js:17-20 | Each half keeps argument order: partitioning a concatenation concatenates the halves |
| CombineStyles.IndexBy | src/utils/combine-styles.js:27-30 | Every indexed creator is one of the arguments and is indexed under its own name |
| CombineStyles.IndexByKeys | src/utils/combine-styles.js:27-30 | A name is indexed exactly when some creator's first dependency is that name |
| CombineStyles.IndexByLastWins | src/utils/combine-styles.js:27-30 | When creators share a first dependency, the last one is kept |
| CombineStyles.PropDependenciesAreNames | src/utils/combine-styles.js:7-10 | `PropDependencies`, the list `createStyles.props`, lists each prop-dependent creator's name, in argument order |
| CombineStyles.NonNil | src/utils/combine-styles.js:50 | Exactly the props whose value is neither null nor undefined are kept |
| CombineStyles.NonNilAppend | src/utils/combine-styles.js:50 | Dropping nil props keeps the order of the others |
| CombineStyles.NilPropIsDropped | src/utils/combine-styles.js:49-51 | A prop set to null or undefined keys the cache exactly as if it were absent |
| CombineStyles.NonNilPropIsKeyed | src/utils/combine-styles.js:50-51 | A non-nil prop always changes the cache key |
| CombineStyles.Selected | src/utils/combine-styles.js:37-39 | Only indexed creators are selected |
| CombineStyles.SelectedFollowsProps | src/utils/combine-styles.js:37-39 | The selection follows prop order: each prop contributes the creator indexed under its name, if any |
| CombineStyles.ReduceStyles | src/utils/combine-styles.js:12-14 | One style output per creator, in order: the i-th is the i-th creator's lookup on the props and theme |
| CombineStyles.ReduceStylesAppend | src/utils/combine-styles.js:12-14 | The outputs of a joined list of creators are the outputs of its parts, joined |
| CombineStyles.DefaultTheme | src/utils/combine-styles.js:49 | The theme is `'default'` exactly when none is given |
| CombineStyles.LookupAppendOther | src/create-style-creators.js:57 | Adding a prop of another name does not change a prop lookup |
| CombineStyles.SelectedIgnoresUnindexed | src/utils/combine-styles.js:37-39 | A prop under which no creator is indexed selects nothing |
| CombineStyles.UnusedNameIsNotIndexed | src/utils/combine-styles.js:27-30 | A name no creator depends on is not indexed |
| CombineStyles.IrrelevantPropDoesNotMatter | src/utils/combine-styles.js:34-46 | A prop no creator depends on leaves `PickedStyles`, the combined styles, unchanged |
| CombineStyles.CombinedStyles.constructor | src/utils/combine-styles.js:16-58 | Starts with an empty table, the partition, the index and `createStyles.props` built from the creators |
| CombineStyles.CombinedStyles.PickStyles | src/utils/combine-styles.js:34-47 | Always returns the flattened creator outputs for the key. A hit leaves the table alone and runs no creator; a miss runs them once and stores the result |
| CombineStyles.CombinedStyles.CreateStyles | src/utils/combine-styles.js:49-54 | Keys the table by the non-nil props and the theme, with `'default'` as the default theme |
| CombineStyles.CreateStylesTwice | src/utils/combine-styles.js:34-54 | Two calls whose non-nil props agree return the same styles and run the creators at most once |
| Connect.Styler.constructor | src/components/connect.js:39 | The version counter starts at zero |
| Connect.Styler.Styled | src/components/connect.js:41-53 | Each `styled` call takes the next version and advances the counter |
| Connect.StyledTwice | src/components/connect.js:53 | Two `styled` calls give different versions |
| Connect.PickProps | src/components/connect.js:212-213 | `pick` keeps exactly the named props, with their values |
| Connect.Omit | src/components/connect.js:125-126 | `omit` keeps exactly the props not named, with their values |
| Connect.InitialThemeChoice | src/components/connect.js:94 | For `InitialTheme`, the first truthy theme wins: the prop, then the context, then `'default'`; the result is truthy |
| Connect.SamePropsAreNoChange | src/components/connect.js:102-151 | Receiving the same props is no change (`PropsChange` is false) and does not raise the flag, for reflexive equality predicates |
| Connect.AddedStyleIsNoChange | src/components/connect.js:134-142 | Adding a `style` where there was none does not raise the flag |
| Connect.NewChildrenAreChange | src/components/connect.js:117-121 | Different children that are not both arrays raise the flag |
| Connect.NextThemeChoice | src/components/connect.js:158-166 | For `NextTheme`, a truthy prop theme wins. A truthy context theme counts only when the prop theme is falsy. Otherwise the theme stays |
| Connect.StalenessFacts | src/components/connect.js:187-209 | Cleared styles are always stale. Styles computed from the same picked values are not. Util styles are never stale without util props |
| Connect.Cleared | src/components/connect.js:282-292 | Every cache field is null, the element is gone and the flag is raised; the theme and the version are kept |
| Connect.Updated | src/components/connect.js:242-246 | The flattened styles are the flattening of the three new sheets |
| Connect.UpdatedRefreshesStaleParts | src/components/connect.js:228-240 | Only the stale parts are recomputed, from the current props and theme; the other fields are untouched |
| Connect.UpdateSettles | src/components/connect.js:187-249 | After an update, the same props find nothing stale, provided the style functions gave non-nil sheets |
| Connect.ClearedIsStale | src/components/connect.js:187-197 | After the cache is cleared, the styles are stale for any props |
| Connect.MergedPropsContent | src/components/connect.js:251-261 | Through `MergedPropsOf`, the component receives the flattened styles, its props except `styles` and the util props, and the instance's theme and `getColor` unless a prop overrides them |
| Connect.StyledComponent.constructor | src/components/connect.js:91-96 | The theme is the initial theme choice, every cache field is null, the flag is false and the version is the class's |
| Connect.StyledComponent.ComponentWillReceiveProps | src/components/connect.js:98-151 | The flag becomes its old value or the change test, so it is never lowered; a change makes `ShouldComponentUpdate` (`!pure || havePropsChanged`) true |
| Connect.StyledComponent.ClearCache | src/components/connect.js:282-292 | The new state is `Cleared` of the old one |
| Connect.StyledComponent.ClearCacheIfHotReloaded | src/components/connect.js:272-280 | Nothing changes when the version is current. Otherwise the cache is cleared and the version recorded |
| Connect.StyledComponent.ComponentWillUpdate | src/components/connect.js:153-167 | Outside production, the hot-reload check runs first. The theme then becomes `NextTheme` of the new prop and context themes |
| Connect.StyledComponent.ComponentWillUnmount | src/components/connect.js:169-171 | The new state is `Cleared` of the old one |
| Connect.StyledComponent.CommitProps | src/components/connect.js:69 | The props and context React sets before an update; no instance field changes |
| Connect.StyledComponent.NeedsToUpdateStyles | src/components/connect.js:187-197 | False exactly on the two early exits: empty picked values with truthy styles, or non-nil styles whose last values equal the new ones |
| Connect.StyledComponent.NeedsToUpdateUtilStyles | src/components/connect.js:199-209 | False exactly when the picked util values are empty, or util styles exist and their last values equal the new ones |
| Connect.StyledComponent.UpdateStylesIfNeeded | src/components/connect.js:211-249 | Returns whether anything was stale. If nothing was, no field changes; otherwise the state becomes `Updated` |
| Connect.StyledComponent.Refresh | src/components/connect.js:228-246 | Each stale part is recomputed with the current theme, then the three sheets are flattened again |
| Connect.StyledComponent.UpdateMergedProps | src/components/connect.js:251-261 | The merged props become `MergedPropsOf` the current state |
| Connect.StyledComponent.GetColor | src/components/connect.js:263-269 | Nothing when the provider has no theme of that name, otherwise that theme's colour for the arguments |
| Connect.StyledComponent.Render | src/components/connect.js:294-331 | The flag is lowered and the styles updated. The merged props are rebuilt when styles or props changed. The old element is returned when neither did, otherwise a fresh one carrying the merged props |
| Connect.StyledComponent.RenderElement | src/components/connect.js:304-330 | The merged props are rebuilt on request, and the old element is kept unless they were rebuilt or there is none |
| Connect.ContextThemeAloneIsIgnored | src/components/connect.js:98-166 | For a pure component whose props stay the same, a new context leaves the flag lowered, so it does not update and keeps its theme |
| Connect.RenderTwice | src/components/connect.js:294-317 | Rendering again with nothing new in between returns the identical element, given reflexive equality and non-nil style outputs |

## Left out

- `StyleSheet.create` is an uninterpreted, deterministic function (`Env.create`), and the registered sheet is opaque. `StyleSheet.flatten` is not used by the core.
- The `JSON.stringify`/`JSON.parse` round trip of `pickStyles` (`src/utils/combine-styles.js:35, 51`) is not modelled. The model keys the cache by the non-nil props and the theme, and hands those props to the creators unchanged. Two prop lists with the same entries in a different order are different keys, as their JSON texts are. The source instead hands the creators a JSON copy. In that copy, function-valued props (event handlers, theme variables) and `undefined` inside nested objects are gone. So `R.keys` (line 36) never lists such a prop, `R.pick` (line 38) never selects its creator, and a lookup reads it as undefined. For example, `boolModifier('onPress', s)` with `onPress: () => {}` applies no style in the source, but does in the model.
- `R.pick` (`src/utils/combine-styles.js:38`) tests names with `in`, so a prop named after an `Object.prototype` member (`constructor`, `toString`) picks that inherited member. The model's `Selected` only finds creators indexed under the name.
- JavaScript's ordering of integer-like object keys (`R.keys` lists them first) is not modelled. Props keep their insertion order.
- Numbers are integers. Floating point, `NaN` and `-0` are not modelled.
- `R.values` lists an object's values in the order of its field names by character code. The property order of JavaScript objects is not modelled; the one use of that order, the flags of `hasThemeDependencies`, is only tested for truthiness.
- `OwnProps` gives a function other than a theme variable no enumerable properties, and a string its characters under their index texts.
- `R.map` over a number, string or function gives that value back. Ramda's treatment of those values is not modelled, and neither are lens lookups into primitives (`Get` gives undefined).
- Objects are compared structurally. Reference equality (`!==` on children, on themes) is modelled as value equality.
- Elements and the library predicates `equals`, `shallowEqual`, `styleEqual` and `shallowEqualArrays` are abstract parameters. `isEmpty` and `isNotNil` are written out.
- The React plumbing of `src/components/connect.js` is not modelled: `createElement`, the `withRef` ref attachment, `hoistStatics`, `wrapDisplayName`, `defaultProps`, `contextTypes`/`childContextTypes`/`getChildContext`. The rendered element is a fresh `Element` carrying the merged props.
- `process.env.NODE_ENV` is the `production` parameter, and the version of the currently loaded class is the `current` parameter.
- The style function a component is decorated with and `context.utils` are abstract functions with a dependency list. The model does not connect them to `CombinedStyles`.
- The context always carries a `utils` style function. Two ways it can lack one are not modelled, and both make the component throw: a missing provider, where `this.context.utils` is undefined; and a `ThemeProvider` mounted without a `utils` prop, whose default `{}` (`src/components/provider.js:40-43`) is not callable at `src/components/connect.js:181` and has no `props` list for the `pick` at `src/components/connect.js:213`.
- `Theme.getColor` is an abstract lookup. `GetColor` only says that nothing comes back when the provider has no theme of that name.
- `src/components/provider.js`, `src/utils/extend-stylesheet.js` and `src/index.js` are not part of this model. `src/types.js` only shapes the `Theme` datatype.
- `parseStyles`/`parseUtils` (`src/components/connect.js:173-185`) are inlined into `Refresh`.
- `combineStyles` among the creators of `createStyleCreators` is the `CombineStyles` module. It is not a field of `StyleCreatorSet`.
- CombineStyles.IndexBy: a style creator is one of the four constructors' lookups (`StyleCreator`), so each prop-dependent creator depends on exactly one prop. Passing a `createStyles` back into `combineStyles`, or a hand-written lookup with an empty or longer `props` list, is not modelled; the indexing by the first dependency (`R.head`) is therefore only exercised on one-element lists.
- CombineStyles.CombinedStyles.PickStyles: the memo table grows without bound, as `memoizee` does with its default options; eviction is not modelled.
