/** The rule registry (`RULES`) and the diagnostics built from it (`createError`). */
module Rules {
  import opened Wrappers

  /** The seven rules of the registry. */
  datatype Rule =
    | NoTabs
    | NoTrailingWhitespace
    | MaxLineLength
    | CamelCaseClasses
    | Indentation
    | NoImplicitBraces
    | NoTrailingSemicolons

  /**
   * The key of a rule in the registry, which the source stores in a diagnostic's `rule` field.
   * The model's diagnostics carry the `Rule` value itself; this is its key.
   */
  function Id(r: Rule): string
  {
    match r
    case NoTabs => "no_tabs"
    case NoTrailingWhitespace => "no_trailing_whitespace"
    case MaxLineLength => "max_line_length"
    case CamelCaseClasses => "camel_case_classes"
    case Indentation => "indentation"
    case NoImplicitBraces => "no_implicit_braces"
    case NoTrailingSemicolons => "no_trailing_semicolons"
  }

  /** The default message of a rule. */
  function Message(r: Rule): string
  {
    match r
    case NoTabs => "Line contains tab indentation"
    case NoTrailingWhitespace => "Line ends with trailing whitespace"
    case MaxLineLength => "Line exceeds maximum allowed length"
    case CamelCaseClasses => "Class names should be camel cased"
    case Indentation => "Line contains inconsistent indentation"
    case NoImplicitBraces => "Implicit braces are forbidden"
    case NoTrailingSemicolons => "Line contains a trailing semicolon"
  }

  /** The rules checked token by token, and those checked line by line. */
  predicate IsLexicalRule(r: Rule) { r == CamelCaseClasses || r == Indentation || r == NoImplicitBraces }

  /** A reported violation: the registry entry overlaid with the occurrence's fields. */
  datatype Diagnostic = Diagnostic(
    rule: Rule,
    message: string,
    lineNumber: nat,
    evidence: Option<string>,
    context: Option<string>)

  /** A diagnostic carries the registry's message for its rule. */
  predicate WellFormed(d: Diagnostic)
  {
    d.message == Message(d.rule)
  }

  /** `createError(rule, attrs)`: the registry's message, plus the rule and the occurrence's attributes. */
  function CreateError(rule: Rule, lineNumber: nat, evidence: Option<string>, context: Option<string>): (d: Diagnostic)
    ensures WellFormed(d)
  {
    Diagnostic(rule, Message(rule), lineNumber, evidence, context)
  }

  /** Different rules never share a registry key. */
  lemma IdInjective(r1: Rule, r2: Rule)
    ensures Id(r1) == Id(r2) ==> r1 == r2
  {
  }
}
