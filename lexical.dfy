/** The lexical pass (`LexicalLinter`): token-driven rules and the line-to-tokens index. */
module Lexical {
  import opened Wrappers
  import opened Text
  import opened Rules
  import opened Config
  import opened Tokens

  /** `peek(n)`: the token `n` places from position `i`, or None outside the stream. */
  function Peek(ts: seq<Token>, i: int, n: int): (t: Option<Token>)
    ensures t.Some? <==> 0 <= i + n < |ts|
    ensures t.Some? ==> t.value == ts[i + n]
  {
    if 0 <= i + n < |ts| then Some(ts[i + n]) else None
  }

  /** `lintBrace`: an opening brace the tokenizer generated, when implicit braces are forbidden. */
  function LintBrace(c: Config, t: Token, lineNumber: nat): (r: Option<Diagnostic>)
    ensures r.Some? <==> c.implicitBraces && t.generated == Some(true)
    ensures r.Some? ==> r.value.rule == NoImplicitBraces && r.value.lineNumber == lineNumber && WellFormed(r.value)
    ensures r.Some? ==> r.value.evidence.None? && r.value.context.None?
  {
    if c.implicitBraces && t.generated == Some(true) then Some(CreateError(NoImplicitBraces, lineNumber, None, None))
    else None
  }

  /** The context of an indentation diagnostic. */
  function IndentationContext(expected: int, got: Value): string
  {
    "Expected " + IntToString(expected) + " spaces and got " + ValueText(got)
  }

  /**
   * `lintIndentation` for the INDENT token at position `i`: skipped when the indent option is falsy,
   * when the token has a `generated` property, and inside string interpolation (the token two
   * places back is `+`); otherwise flagged when its width is not the configured one.
   */
  function LintIndentation(c: Config, ts: seq<Token>, i: nat, lineNumber: nat): (r: Option<Diagnostic>)
    requires i < |ts|
    ensures r.Some? ==> r.value.rule == Indentation && r.value.lineNumber == lineNumber && WellFormed(r.value)
    ensures r.Some? ==> r.value.evidence.None? && r.value.context.Some?
    ensures r.Some? ==> ts[i].value != Num(c.indent) && c.indent != 0
  {
    var t := ts[i];
    if c.indent == 0 || t.generated.Some? then None
    else
      var previous := Peek(ts, i, -2);
      var inInterp := previous.Some? && previous.value.kind == "+";
      if !inInterp && t.value != Num(c.indent) then
        Some(CreateError(Indentation, lineNumber, None, Some(IndentationContext(c.indent, t.value))))
      else None
  }

  /** The exemptions of the indentation rule, and the expected width it reports. */
  lemma IndentationExemptions(c: Config, ts: seq<Token>, i: nat, lineNumber: nat)
    requires i < |ts|
    ensures c.indent == 0 ==> LintIndentation(c, ts, i, lineNumber).None?
    ensures ts[i].generated.Some? ==> LintIndentation(c, ts, i, lineNumber).None?
    ensures i >= 2 && ts[i - 2].kind == "+" ==> LintIndentation(c, ts, i, lineNumber).None?
    ensures c.indent != 0 && ts[i].generated.None? && !(i >= 2 && ts[i - 2].kind == "+") ==>
      (LintIndentation(c, ts, i, lineNumber).Some? <==> ts[i].value != Num(c.indent))
    ensures LintIndentation(c, ts, i, lineNumber).Some? ==>
      var d := LintIndentation(c, ts, i, lineNumber).value;
      d.rule == Indentation && d.lineNumber == lineNumber && d.context.Some? &&
      var ctx := d.context.value;
      |ctx| >= 9 + |IntToString(c.indent)| &&
      ctx[..9] == "Expected " && ParseInt(ctx[9..9 + |IntToString(c.indent)|]) == c.indent &&
      ctx[9 + |IntToString(c.indent)|..] == " spaces and got " + ValueText(ts[i].value)
  {
    var r := LintIndentation(c, ts, i, lineNumber);
    if r.Some? {
      assert r.value.context.value == IndentationContext(c.indent, ts[i].value);
      IndentationContextParts(c.indent, ts[i].value);
    }
  }

  /** The context splits back into its parts: the expected width parses back from its digits. */
  lemma IndentationContextParts(expected: int, got: Value)
    ensures var ctx, e := IndentationContext(expected, got), IntToString(expected);
      |ctx| >= 9 + |e| && ctx[..9] == "Expected " && ParseInt(ctx[9..9 + |e|]) == expected &&
      ctx[9 + |e|..] == " spaces and got " + ValueText(got)
  {
    var head, e, tail := "Expected ", IntToString(expected), " spaces and got " + ValueText(got);
    var ctx := IndentationContext(expected, got);
    assert ctx == head + e + tail;
    ConcatParts(head, e, tail);
    IntToStringRoundTrip(expected);
  }

  /** The three parts of a concatenation can be sliced back out. */
  lemma ConcatParts(head: string, e: string, tail: string)
    ensures (head + e + tail)[..|head|] == head
    ensures (head + e + tail)[|head|..|head| + |e|] == e
    ensures (head + e + tail)[|head| + |e|..] == tail
  {
    assert (head + e + tail)[..|head|] == head;
    assert (head + e + tail)[|head|..|head| + |e|] == e;
  }

  /**
   * The scan of `lintClass` from `offset`: while the token after the current one is a `.`, skip
   * two places; the class name is the value at the offset where the chain ends. None when the
   * scan would read past the stream or stop at a falsy value (where the source throws or never ends).
   */
  function ClassNameOffset(ts: seq<Token>, i: nat, offset: nat): (r: Option<nat>)
    ensures r.Some? ==> offset <= r.value && i + r.value < |ts| && Truthy(ts[i + r.value].value)
    decreases |ts| - (i + offset)
  {
    if i + offset + 1 < |ts| && ts[i + offset + 1].kind == "." then ClassNameOffset(ts, i, offset + 2)
    else if i + offset < |ts| && Truthy(ts[i + offset].value) then Some(offset)
    else None
  }

  /**
   * The scan finds the last segment of the dotted chain: every second token from `offset + 1`
   * up to it is a `.`, and the token after it is not.
   */
  lemma {:induction false} ClassNameOffsetSpec(ts: seq<Token>, i: nat, offset: nat)
    requires ClassNameOffset(ts, i, offset).Some?
    ensures var o := ClassNameOffset(ts, i, offset).value;
      (o - offset) % 2 == 0 &&
      !(i + o + 1 < |ts| && ts[i + o + 1].kind == ".") &&
      forall p :: i + offset < p < i + o && (p - i - offset) % 2 == 1 ==> ts[p].kind == "."
    decreases |ts| - (i + offset)
  {
    if i + offset + 1 < |ts| && ts[i + offset + 1].kind == "." {
      ClassNameOffsetSpec(ts, i, offset + 2);
    }
  }

  /** Every CLASS token is followed by a dotted chain the scan can finish. */
  predicate ClassChainsEnd(ts: seq<Token>)
  {
    forall j {:trigger ClassNameOffset(ts, j, 1)} :: 0 <= j < |ts| && ts[j].kind == "CLASS" ==> ClassNameOffset(ts, j, 1).Some?
  }

  /** The class name the scan of the CLASS token at `i` validates. */
  function ClassName(ts: seq<Token>, i: nat): string
    requires ClassNameOffset(ts, i, 1).Some?
  {
    ValueText(ts[i + ClassNameOffset(ts, i, 1).value].value)
  }

  /** What `lintClass` reports for the CLASS token at `i`. */
  function ClassError(c: Config, ts: seq<Token>, i: nat, lineNumber: nat): (r: Option<Diagnostic>)
    requires ClassNameOffset(ts, i, 1).Some?
    ensures var o := ClassNameOffset(ts, i, 1).value;
      1 <= o && (o - 1) % 2 == 0 && i + o < |ts| &&
      (forall p :: i + 1 < p < i + o && (p - i - 1) % 2 == 1 ==> ts[p].kind == ".") &&
      !(i + o + 1 < |ts| && ts[i + o + 1].kind == ".") &&
      (r.Some? <==> c.camelCaseClasses && !IsPascalCase(ValueText(ts[i + o].value))) &&
      (r.Some? ==> r.value.evidence == Some(ValueText(ts[i + o].value)))
    ensures r.Some? ==> r.value.rule == CamelCaseClasses && r.value.lineNumber == lineNumber && WellFormed(r.value)
  {
    ClassNameOffsetSpec(ts, i, 1);
    var name := ClassName(ts, i);
    if c.camelCaseClasses && !IsPascalCase(name) then
      Some(CreateError(CamelCaseClasses, lineNumber, Some(name), None))
    else None
  }

  /** `lintToken` without the index update: dispatch on the kind of the token at `i`. */
  function TokenError(c: Config, ts: seq<Token>, i: nat): (r: Option<Diagnostic>)
    requires i < |ts|
    requires ts[i].kind == "CLASS" ==> ClassNameOffset(ts, i, 1).Some?
    ensures r.Some? ==> r.value.lineNumber == ts[i].line && WellFormed(r.value) && IsLexicalRule(r.value.rule)
    ensures ts[i].kind != "INDENT" && ts[i].kind != "CLASS" && ts[i].kind != "{" ==> r.None?
    ensures ts[i].kind == "INDENT" ==> r == LintIndentation(c, ts, i, ts[i].line)
    ensures ts[i].kind == "{" ==> (r.Some? <==> c.implicitBraces && ts[i].generated == Some(true))
    ensures ts[i].kind == "CLASS" ==> r == ClassError(c, ts, i, ts[i].line)
  {
    var t := ts[i];
    if t.kind == "INDENT" then LintIndentation(c, ts, i, t.line)
    else if t.kind == "CLASS" then ClassError(c, ts, i, t.line)
    else if t.kind == "{" then LintBrace(c, t, t.line)
    else None
  }

  /** The diagnostics of the first `n` tokens, in stream order. */
  function LexErrorsUpTo(c: Config, ts: seq<Token>, n: nat): seq<Diagnostic>
    requires n <= |ts| && ClassChainsEnd(ts)
  {
    if n == 0 then [] else
      LexErrorsUpTo(c, ts, n - 1) + (if TokenError(c, ts, n - 1).Some? then [TokenError(c, ts, n - 1).value] else [])
  }

  /** The lexical pass's diagnostics. */
  function LexErrors(c: Config, ts: seq<Token>): seq<Diagnostic>
    requires ClassChainsEnd(ts)
  {
    LexErrorsUpTo(c, ts, |ts|)
  }

  /** The per-token results of the first `n` tokens. */
  function TokenErrors(c: Config, ts: seq<Token>, n: nat): (rs: seq<Option<Diagnostic>>)
    requires n <= |ts| && ClassChainsEnd(ts)
    ensures |rs| == n && forall j :: 0 <= j < n ==> rs[j] == TokenError(c, ts, j)
  {
    seq(n, j requires 0 <= j < n => TokenError(c, ts, j))
  }

  /** The diagnostics of the first `n` tokens are the present per-token results. */
  lemma {:induction false} LexErrorsUpToValues(c: Config, ts: seq<Token>, n: nat)
    requires n <= |ts| && ClassChainsEnd(ts)
    ensures LexErrorsUpTo(c, ts, n) == Values(TokenErrors(c, ts, n))
  {
    if n > 0 {
      LexErrorsUpToValues(c, ts, n - 1);
      assert TokenErrors(c, ts, n)[..n - 1] == TokenErrors(c, ts, n - 1);
    }
  }

  /**
   * At most one diagnostic per token: every diagnostic is the one of some token (and carries its
   * line), every token that fires is reported, and there are no more diagnostics than tokens.
   */
  lemma LexErrorsUpToSpec(c: Config, ts: seq<Token>, n: nat)
    requires n <= |ts| && ClassChainsEnd(ts)
    ensures |LexErrorsUpTo(c, ts, n)| <= n
    ensures forall e :: e in LexErrorsUpTo(c, ts, n) ==>
      exists j :: 0 <= j < n && TokenError(c, ts, j) == Some(e) && e.lineNumber == ts[j].line
    ensures forall j :: 0 <= j < n && TokenError(c, ts, j).Some? ==> TokenError(c, ts, j).value in LexErrorsUpTo(c, ts, n)
  {
    LexErrorsUpToValues(c, ts, n);
    ValuesSpec(TokenErrors(c, ts, n));
  }

  lemma LexErrorsSpec(c: Config, ts: seq<Token>)
    requires ClassChainsEnd(ts)
    ensures |LexErrors(c, ts)| <= |ts|
    ensures forall e :: e in LexErrors(c, ts) ==>
      exists j :: 0 <= j < |ts| && TokenError(c, ts, j) == Some(e) && e.lineNumber == ts[j].line
    ensures forall j :: 0 <= j < |ts| && TokenError(c, ts, j).Some? ==> TokenError(c, ts, j).value in LexErrors(c, ts)
    ensures forall e :: e in LexErrors(c, ts) ==> WellFormed(e) && IsLexicalRule(e.rule)
  {
    LexErrorsUpToSpec(c, ts, |ts|);
  }

  /** The option `trailingSemicolons` plays no part in the lexical pass. */
  lemma {:induction false} LexErrorsIgnoreSemicolonKey(c: Config, ts: seq<Token>, n: nat, b: bool)
    requires n <= |ts| && ClassChainsEnd(ts)
    ensures LexErrorsUpTo(c.(trailingSemicolons := b), ts, n) == LexErrorsUpTo(c, ts, n)
  {
    if n > 0 {
      LexErrorsIgnoreSemicolonKey(c, ts, n - 1, b);
      TokenErrorIgnoresSemicolonKey(c, ts, n - 1, b);
    }
  }

  lemma TokenErrorIgnoresSemicolonKey(c: Config, ts: seq<Token>, i: nat, b: bool)
    requires i < |ts| && (ts[i].kind == "CLASS" ==> ClassNameOffset(ts, i, 1).Some?)
    ensures TokenError(c.(trailingSemicolons := b), ts, i) == TokenError(c, ts, i)
  {
  }

  class LexicalLinter {
    const tokens: seq<Token>
    const config: Config
    var i: int
    var lineNumber: nat
    var tokensByLine: LineIndex

    /** The tokens are the tokenizer's output, taken here as an argument. */
    constructor (tokens: seq<Token>, config: Config)
      ensures this.tokens == tokens && this.config == config
      ensures i == 0 && lineNumber == 0 && tokensByLine == map[]
    {
      this.tokens := tokens;
      this.config := config;
      i := 0;
      lineNumber := 0;
      tokensByLine := map[];
    }

    /** `lint`: every token in order, each adding to the index and yielding at most one diagnostic. */
    method Lint() returns (errors: seq<Diagnostic>)
      requires ClassChainsEnd(tokens)
      modifies this
      ensures errors == LexErrors(config, tokens)
      ensures tokensByLine == Indexed(old(tokensByLine), tokens)
      ensures |tokens| > 0 ==> i == |tokens| - 1 && lineNumber == tokens[|tokens| - 1].line
      ensures |tokens| == 0 ==> i == old(i) && lineNumber == old(lineNumber)
    {
      errors := [];
      for k := 0 to |tokens|
        invariant errors == LexErrorsUpTo(config, tokens, k)
        invariant tokensByLine == Indexed(old(tokensByLine), tokens[..k])
        invariant k > 0 ==> i == k - 1 && lineNumber == tokens[k - 1].line
        invariant k == 0 ==> i == old(i) && lineNumber == old(lineNumber)
      {
        i := k;
        var error := LintToken(tokens[k]);
        if error.Some? {
          errors := errors + [error.value];
        }
        assert tokens[..k + 1][..k] == tokens[..k];
      }
      assert tokens[..|tokens|] == tokens;
    }

    /** `lintToken`: file the token under its line, then dispatch on its kind. */
    method LintToken(token: Token) returns (error: Option<Diagnostic>)
      requires 0 <= i < |tokens| && token == tokens[i]
      requires token.kind == "CLASS" ==> ClassNameOffset(tokens, i, 1).Some?
      modifies this
      ensures tokensByLine == AddToken(old(tokensByLine), token)
      ensures lineNumber == token.line && i == old(i)
      ensures error == TokenError(config, tokens, i)
    {
      if token.line !in tokensByLine {
        tokensByLine := tokensByLine[token.line := []];
      }
      tokensByLine := tokensByLine[token.line := tokensByLine[token.line] + [token]];
      lineNumber := token.line;
      if token.kind == "INDENT" {
        error := LintIndentation(config, tokens, i, lineNumber);
      } else if token.kind == "CLASS" {
        error := LintClass();
      } else if token.kind == "{" {
        error := LintBrace(config, token, lineNumber);
      } else {
        error := None;
      }
    }

    /** `lintClass`: follow the dotted chain after the CLASS token and check its last segment. */
    method LintClass() returns (error: Option<Diagnostic>)
      requires 0 <= i && ClassNameOffset(tokens, i, 1).Some?
      ensures error == ClassError(config, tokens, i, lineNumber)
    {
      var className: Option<Value> := None;
      var offset := 1;
      while !(className.Some? && Truthy(className.value))
        invariant 1 <= offset
        invariant ClassNameOffset(tokens, i, offset) == ClassNameOffset(tokens, i, 1)
        invariant className.Some? ==>
          ClassNameOffset(tokens, i, 1) == Some(offset) && className.value == tokens[i + offset].value
        decreases |tokens| - (i + offset), if className.None? then 1 else 0
      {
        var next := Peek(tokens, i, offset + 1);
        if next.Some? && next.value.kind == "." {
          offset := offset + 2;
        } else {
          className := Some(tokens[i + offset].value);
        }
      }
      var name := ValueText(className.value);
      assert name == ClassName(tokens, i);
      if config.camelCaseClasses && !IsPascalCase(name) {
        error := Some(CreateError(CamelCaseClasses, lineNumber, Some(name), None));
      } else {
        error := None;
      }
      assert error == ClassError(config, tokens, i, lineNumber);
    }
  }
}
