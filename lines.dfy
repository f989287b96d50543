/** The line pass (`LineLinter`): four textual checks per line, first match wins. */
module Lines {
  import opened Wrappers
  import opened Text
  import opened Rules
  import opened Config
  import opened Tokens

  /** `lineHasToken`: the lexical pass recorded the line. */
  predicate LineHasToken(index: LineIndex, lineNumber: nat)
    ensures !LineHasToken(index, lineNumber) ==> GetLineTokens(index, lineNumber) == []
  {
    lineNumber in index
  }

  /** `getLineTokens`: the tokens recorded for the line, or none. */
  function GetLineTokens(index: LineIndex, lineNumber: nat): (tokens: seq<Token>)
    ensures lineNumber in index ==> tokens == index[lineNumber]
    ensures lineNumber !in index ==> tokens == []
  {
    if lineNumber in index then index[lineNumber] else []
  }

  /** `createLineError`: the line's number and its whole text as evidence. */
  function CreateLineError(rule: Rule, lineNumber: nat, line: string): (d: Diagnostic)
    ensures d.rule == rule && d.lineNumber == lineNumber && d.evidence == Some(line) && d.context.None?
    ensures WellFormed(d)
  {
    CreateError(rule, lineNumber, Some(line), None)
  }

  /** `checkTabs` */
  function CheckTabs(c: Config, index: LineIndex, lineNumber: nat, line: string): (r: Option<Diagnostic>)
    ensures r.Some? ==> r.value == CreateLineError(NoTabs, lineNumber, line)
    ensures r.Some? ==> !c.tabs && lineNumber in index && exists j :: 0 <= j < |line| && line[j] == '\t'
    ensures c.tabs || lineNumber !in index ==> r.None?
  {
    if c.tabs then None
    else
      var indent := LeadingWhitespace(line);
      if LineHasToken(index, lineNumber) && '\t' in indent then Some(CreateLineError(NoTabs, lineNumber, line))
      else None
  }

  /** `checkTrailingWhitespace` */
  function CheckTrailingWhitespace(c: Config, lineNumber: nat, line: string): (r: Option<Diagnostic>)
    ensures r.Some? ==> r.value == CreateLineError(NoTrailingWhitespace, lineNumber, line)
    ensures r.Some? ==> |line| > 0 && !c.trailing
    ensures c.trailing || line == [] ==> r.None?
  {
    if !c.trailing && EndsWithWhitespace(line) then Some(CreateLineError(NoTrailingWhitespace, lineNumber, line))
    else None
  }

  /** `checkLineLength`: a falsy limit disables the check. */
  function CheckLineLength(c: Config, lineNumber: nat, line: string): (r: Option<Diagnostic>)
    ensures r.Some? ==> r.value == CreateLineError(MaxLineLength, lineNumber, line)
    ensures r.Some? ==> c.lineLength != 0 && c.lineLength < |line|
  {
    var max := c.lineLength;
    if max != 0 && max < |line| then Some(CreateLineError(MaxLineLength, lineNumber, line))
    else None
  }

  /** `checkTrailingSemicolon`: note that it reads the key `trailingSemiColons`. */
  function CheckTrailingSemicolon(c: Config, index: LineIndex, lineNumber: nat, line: string): (r: Option<Diagnostic>)
    ensures r.Some? ==> r.value == CreateLineError(NoTrailingSemicolons, lineNumber, line)
    ensures r.Some? ==> !c.trailingSemiColons && lineNumber in index && |line| > 0 && line[|line| - 1] == ';'
    ensures lineNumber in index && |index[lineNumber]| > 0 && index[lineNumber][|index[lineNumber]| - 1].newLine.Some? ==> r.None?
  {
    if c.trailingSemiColons then None
    else
      var hasSemicolon := EndsWithSemicolon(line);
      var tokens := GetLineTokens(index, lineNumber);
      var hasNewLine := |tokens| > 0 && tokens[|tokens| - 1].newLine.Some?;
      if hasSemicolon && !hasNewLine && LineHasToken(index, lineNumber) then
        Some(CreateLineError(NoTrailingSemicolons, lineNumber, line))
      else None
  }

  /** The line rules in the order `lintLine` tries them. */
  const LineRuleOrder: seq<Rule> := [NoTabs, NoTrailingWhitespace, MaxLineLength, NoTrailingSemicolons]

  /** The check of one line rule; the token rules never fire on a line. */
  function Check(r: Rule, c: Config, index: LineIndex, lineNumber: nat, line: string): (d: Option<Diagnostic>)
    ensures d.Some? ==> d.value == CreateLineError(r, lineNumber, line)
    ensures d.Some? ==> r in LineRuleOrder
  {
    match r
    case NoTabs => CheckTabs(c, index, lineNumber, line)
    case NoTrailingWhitespace => CheckTrailingWhitespace(c, lineNumber, line)
    case MaxLineLength => CheckLineLength(c, lineNumber, line)
    case NoTrailingSemicolons => CheckTrailingSemicolon(c, index, lineNumber, line)
    case _ => None
  }

  /** The first of `rules` whose check fires on the line. */
  function FirstHit(rules: seq<Rule>, c: Config, index: LineIndex, lineNumber: nat, line: string): Option<Diagnostic>
  {
    if rules == [] then None
    else
      var d := Check(rules[0], c, index, lineNumber, line);
      if d.Some? then d else FirstHit(rules[1..], c, index, lineNumber, line)
  }

  /** `lintLine`: the diagnostic of the first line rule that fires, if any. */
  function LineError(c: Config, index: LineIndex, lineNumber: nat, line: string): (r: Option<Diagnostic>)
    ensures r.Some? ==> r.value.lineNumber == lineNumber && r.value.evidence == Some(line) && WellFormed(r.value)
    ensures r.Some? ==> r.value.rule in LineRuleOrder
  {
    FirstHitSpec(LineRuleOrder, c, index, lineNumber, line);
    FirstHit(LineRuleOrder, c, index, lineNumber, line)
  }

  /** The first-hit search over the fixed order, written out as the source's `||` chain. */
  lemma LineErrorUnfolded(c: Config, index: LineIndex, lineNumber: nat, line: string)
    ensures LineError(c, index, lineNumber, line) ==
      var tabs := CheckTabs(c, index, lineNumber, line);
      var trailing := CheckTrailingWhitespace(c, lineNumber, line);
      var length := CheckLineLength(c, lineNumber, line);
      if tabs.Some? then tabs else if trailing.Some? then trailing else if length.Some? then length
      else CheckTrailingSemicolon(c, index, lineNumber, line)
  {
    var order := LineRuleOrder;
    var rest1, rest2, rest3 := order[1..], order[1..][1..], order[1..][1..][1..];
    assert rest1 == [NoTrailingWhitespace, MaxLineLength, NoTrailingSemicolons];
    assert rest2 == [MaxLineLength, NoTrailingSemicolons];
    assert rest3 == [NoTrailingSemicolons] && rest3[1..] == [];
    assert FirstHit(rest3, c, index, lineNumber, line) == CheckTrailingSemicolon(c, index, lineNumber, line);
    assert FirstHit(rest2, c, index, lineNumber, line) ==
      var length := CheckLineLength(c, lineNumber, line);
      if length.Some? then length else FirstHit(rest3, c, index, lineNumber, line);
    assert FirstHit(rest1, c, index, lineNumber, line) ==
      var trailing := CheckTrailingWhitespace(c, lineNumber, line);
      if trailing.Some? then trailing else FirstHit(rest2, c, index, lineNumber, line);
  }

  lemma {:induction false} FirstHitSpec(rules: seq<Rule>, c: Config, index: LineIndex, lineNumber: nat, line: string)
    ensures FirstHit(rules, c, index, lineNumber, line).None? <==>
      forall k :: 0 <= k < |rules| ==> Check(rules[k], c, index, lineNumber, line).None?
    ensures FirstHit(rules, c, index, lineNumber, line).Some? ==>
      exists k :: 0 <= k < |rules| && FirstHit(rules, c, index, lineNumber, line) == Check(rules[k], c, index, lineNumber, line) &&
        forall m :: 0 <= m < k ==> Check(rules[m], c, index, lineNumber, line).None?
  {
    if rules != [] {
      var tail, first := rules[1..], Check(rules[0], c, index, lineNumber, line);
      FirstHitSpec(tail, c, index, lineNumber, line);
      var h := FirstHit(rules, c, index, lineNumber, line);
      assert h == if first.Some? then first else FirstHit(tail, c, index, lineNumber, line);
      assert forall m :: 1 <= m < |rules| ==> rules[m] == tail[m - 1];
      if first.Some? {
        assert h == Check(rules[0], c, index, lineNumber, line);
      } else if h.Some? {
        var k :| 0 <= k < |tail| && h == Check(tail[k], c, index, lineNumber, line) &&
          forall m :: 0 <= m < k ==> Check(tail[m], c, index, lineNumber, line).None?;
        assert h == Check(rules[k + 1], c, index, lineNumber, line);
      }
    }
  }

  /**
   * Precedence: a line gets the diagnostic of the first line rule that fires and none when no rule
   * fires; the diagnostic carries that rule, the line's number, its text and the registry message.
   */
  lemma LineErrorPrecedence(c: Config, index: LineIndex, lineNumber: nat, line: string)
    ensures LineError(c, index, lineNumber, line).None? <==>
      forall k :: 0 <= k < |LineRuleOrder| ==> Check(LineRuleOrder[k], c, index, lineNumber, line).None?
    ensures LineError(c, index, lineNumber, line).Some? ==>
      exists k :: 0 <= k < |LineRuleOrder| &&
        Check(LineRuleOrder[k], c, index, lineNumber, line).Some? &&
        LineError(c, index, lineNumber, line) == Some(CreateLineError(LineRuleOrder[k], lineNumber, line)) &&
        forall m :: 0 <= m < k ==> Check(LineRuleOrder[m], c, index, lineNumber, line).None?
  {
    FirstHitSpec(LineRuleOrder, c, index, lineNumber, line);
  }

  /** `no_tabs` fires iff tabs are disallowed, the line has tokens, and a tab comes before any non-whitespace. */
  lemma CheckTabsIff(c: Config, index: LineIndex, lineNumber: nat, line: string)
    ensures CheckTabs(c, index, lineNumber, line).Some? <==>
      !c.tabs && lineNumber in index &&
      exists j :: 0 <= j < |line| && line[j] == '\t' && forall m :: 0 <= m < j ==> IsWhitespace(line[m])
  {
  }

  /** `no_trailing_whitespace` fires iff trailing whitespace is disallowed and a non-empty suffix is all whitespace. */
  lemma CheckTrailingWhitespaceIff(c: Config, lineNumber: nat, line: string)
    ensures CheckTrailingWhitespace(c, lineNumber, line).Some? <==>
      !c.trailing && exists j: nat :: j < |line| && WhitespaceFrom(line, j)
  {
    EndsWithWhitespaceIff(line);
  }

  /** The length limit is strict: a line exactly at the limit passes, one character more is flagged. */
  lemma LineLengthBoundary(c: Config, lineNumber: nat, line: string)
    ensures c.lineLength > 0 ==> (CheckLineLength(c, lineNumber, line).Some? <==> c.lineLength < |line|)
    ensures c.lineLength == 0 ==> CheckLineLength(c, lineNumber, line).None?
    ensures c.lineLength < 0 ==> CheckLineLength(c, lineNumber, line).Some?
    ensures c.lineLength > 0 && |line| == c.lineLength ==> CheckLineLength(c, lineNumber, line).None?
    ensures c.lineLength > 0 && |line| == c.lineLength + 1 ==> CheckLineLength(c, lineNumber, line).Some?
  {
  }

  /**
   * `no_trailing_semicolons` fires iff the capital-C key is unset, the line ends in `;`, the line has
   * recorded tokens, and the last of them has no `newLine` property; the key `trailingSemicolons` is never read.
   */
  lemma CheckTrailingSemicolonIff(c: Config, index: LineIndex, lineNumber: nat, line: string, b: bool)
    ensures CheckTrailingSemicolon(c, index, lineNumber, line).Some? <==>
      !c.trailingSemiColons && |line| > 0 && line[|line| - 1] == ';' && lineNumber in index &&
      !(|index[lineNumber]| > 0 && index[lineNumber][|index[lineNumber]| - 1].newLine.Some?)
    ensures CheckTrailingSemicolon(c.(trailingSemicolons := b), index, lineNumber, line) ==
      CheckTrailingSemicolon(c, index, lineNumber, line)
  {
  }

  /** The diagnostics of the first `n` lines, in line order. */
  function LineErrorsUpTo(c: Config, index: LineIndex, lines: seq<string>, n: nat): seq<Diagnostic>
    requires n <= |lines|
  {
    if n == 0 then [] else
      LineErrorsUpTo(c, index, lines, n - 1) +
      (if LineError(c, index, n - 1, lines[n - 1]).Some? then [LineError(c, index, n - 1, lines[n - 1]).value] else [])
  }

  /** The line pass's diagnostics. */
  function LineErrors(c: Config, index: LineIndex, lines: seq<string>): seq<Diagnostic>
  {
    LineErrorsUpTo(c, index, lines, |lines|)
  }

  /**
   * The shape of the line pass: line numbers strictly increase (so at most one diagnostic per line),
   * each diagnostic is the line's own `lintLine` result, and every line that fires is reported.
   */
  lemma LineErrorsUpToSpec(c: Config, index: LineIndex, lines: seq<string>, n: nat)
    requires n <= |lines|
    ensures forall p :: 0 <= p < |LineErrorsUpTo(c, index, lines, n)| ==>
      var e := LineErrorsUpTo(c, index, lines, n)[p];
      e.lineNumber < n && LineError(c, index, e.lineNumber, lines[e.lineNumber]) == Some(e)
    ensures forall p, q :: 0 <= p < q < |LineErrorsUpTo(c, index, lines, n)| ==>
      LineErrorsUpTo(c, index, lines, n)[p].lineNumber < LineErrorsUpTo(c, index, lines, n)[q].lineNumber
    ensures forall k :: 0 <= k < n && LineError(c, index, k, lines[k]).Some? ==>
      LineError(c, index, k, lines[k]).value in LineErrorsUpTo(c, index, lines, n)
  {
    LineErrorsUpToOrdered(c, index, lines, n);
    LineErrorsUpToValues(c, index, lines, n);
    var rs := LineResults(c, index, lines, n);
    ValuesSpec(rs);
    forall p | 0 <= p < |LineErrorsUpTo(c, index, lines, n)|
      ensures var e := LineErrorsUpTo(c, index, lines, n)[p];
        e.lineNumber < n && LineError(c, index, e.lineNumber, lines[e.lineNumber]) == Some(e)
    {
      var e := LineErrorsUpTo(c, index, lines, n)[p];
      assert e in Values(rs);
      var k :| 0 <= k < |rs| && rs[k] == Some(e);
      assert LineError(c, index, k, lines[k]) == Some(e);
    }
  }

  /** Line numbers stay below `n` and strictly increase. */
  lemma {:induction false} LineErrorsUpToOrdered(c: Config, index: LineIndex, lines: seq<string>, n: nat)
    requires n <= |lines|
    ensures forall p :: 0 <= p < |LineErrorsUpTo(c, index, lines, n)| ==> LineErrorsUpTo(c, index, lines, n)[p].lineNumber < n
    ensures forall p, q :: 0 <= p < q < |LineErrorsUpTo(c, index, lines, n)| ==>
      LineErrorsUpTo(c, index, lines, n)[p].lineNumber < LineErrorsUpTo(c, index, lines, n)[q].lineNumber
  {
    if n > 0 {
      LineErrorsUpToOrdered(c, index, lines, n - 1);
    }
  }

  /** The per-line results of the first `n` lines. */
  function LineResults(c: Config, index: LineIndex, lines: seq<string>, n: nat): (rs: seq<Option<Diagnostic>>)
    requires n <= |lines|
    ensures |rs| == n && forall k :: 0 <= k < n ==> rs[k] == LineError(c, index, k, lines[k])
  {
    seq(n, k requires 0 <= k < n => LineError(c, index, k, lines[k]))
  }

  /** The diagnostics of the first `n` lines are the present per-line results. */
  lemma {:induction false} LineErrorsUpToValues(c: Config, index: LineIndex, lines: seq<string>, n: nat)
    requires n <= |lines|
    ensures LineErrorsUpTo(c, index, lines, n) == Values(LineResults(c, index, lines, n))
  {
    if n > 0 {
      LineErrorsUpToValues(c, index, lines, n - 1);
      assert LineResults(c, index, lines, n)[..n - 1] == LineResults(c, index, lines, n - 1);
    }
  }

  lemma LineErrorsSpec(c: Config, index: LineIndex, lines: seq<string>)
    ensures forall p :: 0 <= p < |LineErrors(c, index, lines)| ==>
      var e := LineErrors(c, index, lines)[p];
      e.lineNumber < |lines| && LineError(c, index, e.lineNumber, lines[e.lineNumber]) == Some(e) &&
      e.rule in LineRuleOrder && e.evidence == Some(lines[e.lineNumber]) && WellFormed(e)
    ensures forall p, q :: 0 <= p < q < |LineErrors(c, index, lines)| ==>
      LineErrors(c, index, lines)[p].lineNumber < LineErrors(c, index, lines)[q].lineNumber
    ensures forall k :: 0 <= k < |lines| && LineError(c, index, k, lines[k]).Some? ==>
      LineError(c, index, k, lines[k]).value in LineErrors(c, index, lines)
  {
    LineErrorsUpToSpec(c, index, lines, |lines|);
    forall p | 0 <= p < |LineErrors(c, index, lines)|
      ensures var e := LineErrors(c, index, lines)[p];
        e.rule in LineRuleOrder && e.evidence == Some(lines[e.lineNumber]) && WellFormed(e)
    {
      var e := LineErrors(c, index, lines)[p];
      LineErrorPrecedence(c, index, e.lineNumber, lines[e.lineNumber]);
    }
  }

  /** Allowing trailing whitespace removes every `no_trailing_whitespace` diagnostic. */
  lemma TrailingAllowedSuppresses(c: Config, index: LineIndex, lines: seq<string>)
    requires c.trailing
    ensures forall e :: e in LineErrors(c, index, lines) ==> e.rule != NoTrailingWhitespace
  {
    LineErrorsSpec(c, index, lines);
    forall e | e in LineErrors(c, index, lines) ensures e.rule != NoTrailingWhitespace {
      var p :| 0 <= p < |LineErrors(c, index, lines)| && LineErrors(c, index, lines)[p] == e;
      LineErrorPrecedence(c, index, e.lineNumber, lines[e.lineNumber]);
    }
  }

  /** Allowing tabs removes every `no_tabs` diagnostic. */
  lemma TabsAllowedSuppresses(c: Config, index: LineIndex, lines: seq<string>)
    requires c.tabs
    ensures forall e :: e in LineErrors(c, index, lines) ==> e.rule != NoTabs
  {
    LineErrorsSpec(c, index, lines);
    forall e | e in LineErrors(c, index, lines) ensures e.rule != NoTabs {
      var p :| 0 <= p < |LineErrors(c, index, lines)| && LineErrors(c, index, lines)[p] == e;
      LineErrorPrecedence(c, index, e.lineNumber, lines[e.lineNumber]);
    }
  }

  /** The option `trailingSemicolons` plays no part in the line pass. */
  lemma {:induction false} LineErrorsIgnoreSemicolonKey(c: Config, index: LineIndex, lines: seq<string>, n: nat, b: bool)
    requires n <= |lines|
    ensures LineErrorsUpTo(c.(trailingSemicolons := b), index, lines, n) == LineErrorsUpTo(c, index, lines, n)
  {
    if n > 0 {
      LineErrorsIgnoreSemicolonKey(c, index, lines, n - 1, b);
      LineErrorIgnoresSemicolonKey(c, index, n - 1, lines[n - 1], b);
    }
  }

  lemma LineErrorIgnoresSemicolonKey(c: Config, index: LineIndex, lineNumber: nat, line: string, b: bool)
    ensures LineError(c.(trailingSemicolons := b), index, lineNumber, line) == LineError(c, index, lineNumber, line)
  {
    LineErrorUnfolded(c, index, lineNumber, line);
    LineErrorUnfolded(c.(trailingSemicolons := b), index, lineNumber, line);
  }

  class LineLinter {
    const source: string
    const config: Config
    const tokensByLine: LineIndex
    var line: string
    var lineNumber: nat

    /** The index is the one the lexical pass built; `line` starts empty (null in the source). */
    constructor (source: string, config: Config, tokensByLine: LineIndex)
      ensures this.source == source && this.config == config && this.tokensByLine == tokensByLine
      ensures line == [] && lineNumber == 0
    {
      this.source := source;
      this.config := config;
      this.tokensByLine := tokensByLine;
      line := [];
      lineNumber := 0;
    }

    /** `lint`: every line of `source.split('\n')` in order, each yielding at most one diagnostic. */
    method Lint() returns (errors: seq<Diagnostic>)
      modifies this
      ensures errors == LineErrors(config, tokensByLine, Split(source))
      ensures lineNumber == |Split(source)| - 1 && line == Split(source)[lineNumber]
    {
      errors := [];
      var lines := Split(source);
      for n := 0 to |lines|
        invariant errors == LineErrorsUpTo(config, tokensByLine, lines, n)
        invariant n > 0 ==> lineNumber == n - 1 && line == lines[n - 1]
      {
        lineNumber := n;
        line := lines[n];
        var error := LintLine();
        if error.Some? {
          errors := errors + [error.value];
        }
      }
    }

    /** `lintLine`: the four checks in order, stopping at the first that fires. */
    method LintLine() returns (error: Option<Diagnostic>)
      ensures error == LineError(config, tokensByLine, lineNumber, line)
    {
      error := CheckTabs(config, tokensByLine, lineNumber, line);
      if error.None? {
        error := CheckTrailingWhitespace(config, lineNumber, line);
      }
      if error.None? {
        error := CheckLineLength(config, lineNumber, line);
      }
      if error.None? {
        error := CheckTrailingSemicolon(config, tokensByLine, lineNumber, line);
      }
      LineErrorUnfolded(config, tokensByLine, lineNumber, line);
    }
  }
}
