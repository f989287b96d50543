/** Option resolution: `DEFAULT_CONFIG`, `defaults` and the `tabs` adjustment of `coffeelint.lint`. */
module Config {
  import opened Wrappers

  /**
   * A resolved configuration. `lineLength` and `indent` are falsy when 0 (a `false` line length is
   * written 0). `trailingSemiColons`, spelt with a capital C, is the key the semicolon check reads;
   * it is not among the defaults, so it is false unless the user gives it.
   */
  datatype Config = Config(
    tabs: bool,
    trailing: bool,
    lineLength: int,
    indent: int,
    camelCaseClasses: bool,
    trailingSemicolons: bool,
    implicitBraces: bool,
    trailingSemiColons: bool)

  /** The options a user passes; None is a key the user did not give. */
  datatype UserConfig = UserConfig(
    tabs: Option<bool>,
    trailing: Option<bool>,
    lineLength: Option<int>,
    indent: Option<int>,
    camelCaseClasses: Option<bool>,
    trailingSemicolons: Option<bool>,
    implicitBraces: Option<bool>,
    trailingSemiColons: Option<bool>)

  const DefaultConfig: Config := Config(
    tabs := false,
    trailing := false,
    lineLength := 80,
    indent := 2,
    camelCaseClasses := true,
    trailingSemicolons := false,
    implicitBraces := false,
    trailingSemiColons := false)

  /** `coffeelint.lint(source)` called without options. */
  const NoOptions: UserConfig := UserConfig(None, None, None, None, None, None, None, None)

  /** `defaults(user, base)`: every key the user gives overrides the base. */
  function Defaults(user: UserConfig, base: Config): (c: Config)
    ensures c.tabs == (if user.tabs.Some? then user.tabs.value else base.tabs)
    ensures c.trailing == (if user.trailing.Some? then user.trailing.value else base.trailing)
    ensures c.lineLength == (if user.lineLength.Some? then user.lineLength.value else base.lineLength)
    ensures c.indent == (if user.indent.Some? then user.indent.value else base.indent)
    ensures c.camelCaseClasses == (if user.camelCaseClasses.Some? then user.camelCaseClasses.value else base.camelCaseClasses)
    ensures c.trailingSemicolons == (if user.trailingSemicolons.Some? then user.trailingSemicolons.value else base.trailingSemicolons)
    ensures c.implicitBraces == (if user.implicitBraces.Some? then user.implicitBraces.value else base.implicitBraces)
    ensures c.trailingSemiColons == (if user.trailingSemiColons.Some? then user.trailingSemiColons.value else base.trailingSemiColons)
  {
    Config(
      tabs := user.tabs.GetOr(base.tabs),
      trailing := user.trailing.GetOr(base.trailing),
      lineLength := user.lineLength.GetOr(base.lineLength),
      indent := user.indent.GetOr(base.indent),
      camelCaseClasses := user.camelCaseClasses.GetOr(base.camelCaseClasses),
      trailingSemicolons := user.trailingSemicolons.GetOr(base.trailingSemicolons),
      implicitBraces := user.implicitBraces.GetOr(base.implicitBraces),
      trailingSemiColons := user.trailingSemiColons.GetOr(base.trailingSemiColons))
  }

  /** The configuration `coffeelint.lint` works with: defaults overlaid by the user, then tabs force an indent of 1. */
  function Resolve(user: UserConfig): (c: Config)
    ensures user.tabs.Some? ==> c.tabs == user.tabs.value
    ensures user.tabs.None? ==> c.tabs == DefaultConfig.tabs
    ensures user.trailing.Some? ==> c.trailing == user.trailing.value
    ensures user.trailing.None? ==> c.trailing == DefaultConfig.trailing
    ensures user.lineLength.Some? ==> c.lineLength == user.lineLength.value
    ensures user.lineLength.None? ==> c.lineLength == DefaultConfig.lineLength
    ensures user.camelCaseClasses.Some? ==> c.camelCaseClasses == user.camelCaseClasses.value
    ensures user.camelCaseClasses.None? ==> c.camelCaseClasses == DefaultConfig.camelCaseClasses
    ensures user.trailingSemicolons.Some? ==> c.trailingSemicolons == user.trailingSemicolons.value
    ensures user.trailingSemicolons.None? ==> c.trailingSemicolons == DefaultConfig.trailingSemicolons
    ensures user.implicitBraces.Some? ==> c.implicitBraces == user.implicitBraces.value
    ensures user.implicitBraces.None? ==> c.implicitBraces == DefaultConfig.implicitBraces
    ensures user.trailingSemiColons.Some? ==> c.trailingSemiColons == user.trailingSemiColons.value
    ensures user.trailingSemiColons.None? ==> !c.trailingSemiColons
    ensures c.tabs ==> c.indent == 1
    ensures !c.tabs ==> c.indent == user.indent.GetOr(DefaultConfig.indent)
  {
    var c := Defaults(user, DefaultConfig);
    if c.tabs then c.(indent := 1) else c
  }

  /** The user options that spell out `c` in full. */
  function Given(c: Config): UserConfig
  {
    UserConfig(Some(c.tabs), Some(c.trailing), Some(c.lineLength), Some(c.indent),
      Some(c.camelCaseClasses), Some(c.trailingSemicolons), Some(c.implicitBraces), Some(c.trailingSemiColons))
  }

  /**
   * Resolution is a projection: giving no options yields the defaults, and spelling out a configuration
   * that already obeys the tabs rule yields that configuration back.
   */
  lemma ResolveIsProjection(c: Config)
    ensures Resolve(NoOptions) == DefaultConfig
    ensures (c.tabs ==> c.indent == 1) ==> Resolve(Given(c)) == c
    ensures Resolve(Given(Resolve(Given(c)))) == Resolve(Given(c))
  {
  }
}
