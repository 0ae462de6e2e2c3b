/** src/create-theme-variable.js and the shapes of src/types.js: deferred
    values that are resolved only once a theme is known. */
module ThemeVariables {
  import opened JsValues

  /** A theme as src/types.js describes it: a colour lookup by path. */
  datatype Theme = Theme(getColor: seq<string> -> Option<string>)

  /** The code the style engine calls but does not contain: the host's
      `StyleSheet.create`, deterministic here, and the user's resolver
      functions, by the identifier a theme variable records. */
  datatype Env = Env(create: Value -> Value, resolve: (nat, Theme, seq<Value>) -> Value)

  /** `createThemeVariable(resolver)(...args)`: the marked `resolve` closure.
      Nothing is resolved here; the resolver runs only when the closure is
      called with a theme. */
  function CreateThemeVariable(resolver: nat, args: seq<Value>): (v: Value)
    ensures v.Var? && Get(v, Str("variable")) == Bool(true)
    ensures v.resolver == resolver && v.args == args
  {
    Var(resolver, args)
  }

  /** Calling the closure with a theme: `resolver(theme, ...args)`. */
  function Resolve(env: Env, v: Value, theme: Theme): Value
    requires v.Var?
  {
    env.resolve(v.resolver, theme, v.args)
  }

  /** What a created variable gives for a theme is the resolver applied to
      that theme followed by the captured arguments, in their order; it
      depends on nothing else, so resolving twice gives the same value. */
  lemma ResolveCreated(env: Env, resolver: nat, args: seq<Value>, theme: Theme)
    ensures Resolve(env, CreateThemeVariable(resolver, args), theme) == env.resolve(resolver, theme, args)
  {
  }
}
