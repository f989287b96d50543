/** `coffeelint.lint`: resolve the options, run both passes, and order the diagnostics by line. */
module CoffeeLint {
  import opened Wrappers
  import opened Text
  import opened Rules
  import opened Config
  import opened Tokens
  import opened Lexical
  import opened Lines

  /** Non-decreasing in `lineNumber`. */
  predicate SortedByLine(s: seq<Diagnostic>)
  {
    forall p, q :: 0 <= p < q < |s| ==> s[p].lineNumber <= s[q].lineNumber
  }

  function InsertByLine(d: Diagnostic, s: seq<Diagnostic>): (r: seq<Diagnostic>)
    requires SortedByLine(s)
    ensures SortedByLine(r)
    ensures multiset(r) == multiset(s) + multiset{d}
    ensures forall x :: x in r ==> x == d || x in s
  {
    if s == [] then [d]
    else if d.lineNumber <= s[0].lineNumber then [d] + s
    else
      var rest := InsertByLine(d, s[1..]);
      assert s == [s[0]] + s[1..];
      ConsSorted(s[0], s[1..], d, rest);
      [s[0]] + rest
  }

  /** A sorted list stays sorted under a head no later than its elements. */
  lemma ConsSorted(head: Diagnostic, tail: seq<Diagnostic>, d: Diagnostic, rest: seq<Diagnostic>)
    requires SortedByLine([head] + tail) && head.lineNumber < d.lineNumber
    requires SortedByLine(rest) && forall x :: x in rest ==> x == d || x in tail
    ensures SortedByLine([head] + rest)
  {
    forall q | 0 <= q < |rest| ensures head.lineNumber <= rest[q].lineNumber {
      assert rest[q] in rest;
      if rest[q] != d {
        var p :| 0 <= p < |tail| && tail[p] == rest[q];
        assert ([head] + tail)[0] == head && ([head] + tail)[p + 1] == rest[q];
      }
    }
    assert forall p, q :: 0 < p < q < 1 + |rest| ==> ([head] + rest)[p] == rest[p - 1] && ([head] + rest)[q] == rest[q - 1];
  }

  /**
   * `errors.sort((a, b) -> a.lineNumber - b.lineNumber)`: a sorted permutation. The order of
   * diagnostics on the same line is whatever this insertion gives; the source does not fix it.
   */
  function SortByLine(s: seq<Diagnostic>): (r: seq<Diagnostic>)
    ensures SortedByLine(r)
    ensures multiset(r) == multiset(s)
  {
    if s == [] then []
    else
      assert s == [s[0]] + s[1..];
      InsertByLine(s[0], SortByLine(s[1..]))
  }

  /** Both passes' diagnostics, lexical first, before sorting. */
  function Findings(c: Config, source: string, tokens: seq<Token>): seq<Diagnostic>
    requires ClassChainsEnd(tokens)
  {
    LexErrors(c, tokens) + LineErrors(c, Index(tokens), Split(source))
  }

  /**
   * `coffeelint.lint(source, userConfig)` over the tokenizer's output `tokens`: the result is the
   * diagnostics of both passes, each carrying its rule's registry message, sorted by line.
   */
  method Lint(source: string, tokens: seq<Token>, userConfig: UserConfig) returns (errors: seq<Diagnostic>)
    requires ClassChainsEnd(tokens)
    ensures SortedByLine(errors)
    ensures multiset(errors) == multiset(Findings(Resolve(userConfig), source, tokens))
    ensures forall e :: e in errors ==> WellFormed(e)
  {
    var config := Defaults(userConfig, DefaultConfig);
    if config.tabs {
      config := config.(indent := 1);
    }
    var lexicalLinter := new LexicalLinter(tokens, config);
    var lexErrors := lexicalLinter.Lint();
    var tokensByLine := lexicalLinter.tokensByLine;
    var lineLinter := new LineLinter(source, config, tokensByLine);
    var lineErrors := lineLinter.Lint();
    errors := SortByLine(lexErrors + lineErrors);
    FindingsWellFormed(config, source, tokens);
    forall e | e in errors ensures WellFormed(e) {
      assert e in multiset(errors);
    }
  }

  /** Every diagnostic of either pass carries the registry message of its rule. */
  lemma FindingsWellFormed(c: Config, source: string, tokens: seq<Token>)
    requires ClassChainsEnd(tokens)
    ensures forall e :: e in Findings(c, source, tokens) ==> WellFormed(e)
  {
    LexErrorsSpec(c, tokens);
    LineErrorsSpec(c, Index(tokens), Split(source));
  }

  /**
   * The two passes meet through the index: the line pass sees line `k` as having tokens iff some token
   * lies on it, and the last token it consults for the semicolon rule is the last such token in the stream.
   */
  lemma IndexFeedsLineChecks(c: Config, tokens: seq<Token>, k: nat, line: string)
    ensures LineHasToken(Index(tokens), k) <==> exists j :: 0 <= j < |tokens| && tokens[j].line == k
    ensures GetLineTokens(Index(tokens), k) == TokensOn(tokens, k)
    ensures CheckTrailingSemicolon(c, Index(tokens), k, line).Some? <==>
      !c.trailingSemiColons && EndsWithSemicolon(line) && TokensOn(tokens, k) != [] &&
      TokensOn(tokens, k)[|TokensOn(tokens, k)| - 1].newLine.None?
  {
    IndexIsFilter(tokens);
    TokensOnEmpty(tokens, k);
    var index := Index(tokens);
    assert GetLineTokens(index, k) == TokensOn(tokens, k);
    assert LineHasToken(index, k) <==> TokensOn(tokens, k) != [];
  }

  /** Allowing trailing whitespace leaves no `no_trailing_whitespace` diagnostic. */
  lemma TrailingOptionSuppresses(c: Config, source: string, tokens: seq<Token>)
    requires ClassChainsEnd(tokens) && c.trailing
    ensures forall e :: e in Findings(c, source, tokens) ==> e.rule != NoTrailingWhitespace
  {
    LexErrorsSpec(c, tokens);
    TrailingAllowedSuppresses(c, Index(tokens), Split(source));
  }

  /** When the resolved options allow tabs, no `no_tabs` diagnostic remains and the expected indent is 1. */
  lemma TabsOptionSuppresses(userConfig: UserConfig, source: string, tokens: seq<Token>)
    requires ClassChainsEnd(tokens) && Resolve(userConfig).tabs
    ensures Resolve(userConfig).indent == 1
    ensures forall e :: e in Findings(Resolve(userConfig), source, tokens) ==> e.rule != NoTabs
  {
    var c := Resolve(userConfig);
    LexErrorsSpec(c, tokens);
    TabsAllowedSuppresses(c, Index(tokens), Split(source));
  }

  /** The default key `trailingSemicolons` changes nothing: only `trailingSemiColons` is read. */
  lemma SemicolonKeyIgnored(c: Config, source: string, tokens: seq<Token>, b: bool)
    requires ClassChainsEnd(tokens)
    ensures Findings(c.(trailingSemicolons := b), source, tokens) == Findings(c, source, tokens)
  {
    LexErrorsIgnoreSemicolonKey(c, tokens, |tokens|, b);
    LineErrorsIgnoreSemicolonKey(c, Index(tokens), Split(source), |Split(source)|, b);
  }

  /** An INDENT token of width 4 on line 2, with the default options, is reported with the expected width. */
  lemma IndentationScenario()
    ensures var ts := [Token("IDENTIFIER", Str("x"), 1, None, None), Token("TERMINATOR", Str("\n"), 1, None, None),
                       Token("INDENT", Num(4), 2, None, None)];
      TokenError(Resolve(NoOptions), ts, 2) ==
        Some(Diagnostic(Indentation, "Line contains inconsistent indentation", 2, None, Some("Expected 2 spaces and got 4")))
  {
    assert DigitChar(2) == '2' && DigitChar(4) == '4';
    assert IntToString(2) == "2" && IntToString(4) == "4";
    assert IndentationContext(2, Num(4)) == "Expected 2 spaces and got 4";
    assert Resolve(NoOptions) == DefaultConfig;
  }

  /** With tabs allowed the expected width is 1, so an INDENT of width 1 passes whatever indent was given. */
  lemma TabsScenario(indent: int)
    ensures var ts := [Token("IDENTIFIER", Str("x"), 1, None, None), Token("TERMINATOR", Str("\n"), 1, None, None),
                       Token("INDENT", Num(1), 2, None, None)];
      TokenError(Resolve(NoOptions.(tabs := Some(true), indent := Some(indent))), ts, 2).None?
  {
  }

  /** A line of 81 characters under the default limit of 80 gets `max_line_length`; one of 80 gets nothing. */
  lemma LongLineScenario(index: LineIndex)
    ensures LineError(DefaultConfig, index, 0, seq(81, _ => 'a')) ==
      Some(CreateLineError(MaxLineLength, 0, seq(81, _ => 'a')))
    ensures LineError(DefaultConfig, index, 0, seq(80, _ => 'a')).None?
  {
    LineErrorUnfolded(DefaultConfig, index, 0, seq(81, _ => 'a'));
    LineErrorUnfolded(DefaultConfig, index, 0, seq(80, _ => 'a'));
  }

  /** A class declared as `a.b.foo` is reported with the last segment `foo` as evidence. */
  lemma ClassScenario()
    ensures var ts := [Token("CLASS", Str("class"), 0, None, None), Token("IDENTIFIER", Str("a"), 0, None, None),
                       Token(".", Str("."), 0, None, None), Token("IDENTIFIER", Str("b"), 0, None, None),
                       Token(".", Str("."), 0, None, None), Token("IDENTIFIER", Str("foo"), 0, None, None)];
      ClassNameOffset(ts, 0, 1) == Some(5) &&
      TokenError(DefaultConfig, ts, 0) == Some(CreateError(CamelCaseClasses, 0, Some("foo"), None))
  {
  }

  /** `"\tx = 1"`, a line the lexer saw, starts with a tab: the line pass reports `no_tabs` on line 0. */
  lemma TabLineScenario(t: Token)
    requires t.line == 0
    ensures LineErrors(DefaultConfig, Index([t]), Split("\tx = 1")) == [CreateLineError(NoTabs, 0, "\tx = 1")]
  {
    var line := "\tx = 1";
    SplitSingleLine(line);
    var index := Index([t]);
    assert 0 in index by {
      assert [t][..0] == [] && Indexed(map[], []) == map[];
      assert index == Indexed(map[], [t]) == AddToken(map[], t);
    }
    TabLineFires(index);
    assert LineErrorsUpTo(DefaultConfig, index, [line], 1) == [CreateLineError(NoTabs, 0, line)];
  }

  lemma TabLineFires(index: LineIndex)
    requires 0 in index
    ensures LineError(DefaultConfig, index, 0, "\tx = 1") == Some(CreateLineError(NoTabs, 0, "\tx = 1"))
  {
    var line := "\tx = 1";
    assert LeadingWhitespace(line) == "\t" by {
      assert line[1..][0] == 'x' && !IsWhitespace('x');
      assert LeadingWhitespace(line[1..]) == [];
    }
    LineErrorUnfolded(DefaultConfig, index, 0, line);
  }

  /** `"foo   \n"` splits into `"foo   "` and `""`: the first gets `no_trailing_whitespace`, the second nothing. */
  lemma TrailingSpaceScenario(index: LineIndex)
    ensures LineErrors(DefaultConfig, index, Split("foo   \n")) == [CreateLineError(NoTrailingWhitespace, 0, "foo   ")]
  {
    var line := "foo   ";
    assert Split("foo   \n") == [line, ""] by {
      SplitLine(line, "");
      assert "foo   \n" == line + "\n" + "";
    }
    TrailingSpaceFires(index);
    EmptyLineQuiet(index, 1);
    var lines := [line, ""];
    assert LineErrorsUpTo(DefaultConfig, index, lines, 1) == [CreateLineError(NoTrailingWhitespace, 0, line)];
  }

  lemma TrailingSpaceFires(index: LineIndex)
    ensures LineError(DefaultConfig, index, 0, "foo   ") == Some(CreateLineError(NoTrailingWhitespace, 0, "foo   "))
  {
    assert LeadingWhitespace("foo   ") == [];
    LineErrorUnfolded(DefaultConfig, index, 0, "foo   ");
  }

  /** An empty line breaks no line rule. */
  lemma EmptyLineQuiet(index: LineIndex, lineNumber: nat)
    ensures LineError(DefaultConfig, index, lineNumber, "").None?
  {
    LineErrorUnfolded(DefaultConfig, index, lineNumber, "");
  }
}
