# CoffeeLint engine, modelled in Dafny

This project models the lint engine of CoffeeLint 0.0.4 (`lib/coffeelint.js`). The engine
reads a CoffeeScript source text and the token stream a tokenizer made from it. It returns
style diagnostics sorted by line. It has four parts:

- **Option resolution** (`Config`). The user's options overlay `DEFAULT_CONFIG`. When the
  resolved `tabs` option is true, the expected indent becomes 1.
- **Lexical pass** (`Lexical.LexicalLinter`). It walks the tokens once and files each token
  in the `tokensByLine` index under its line. It checks three token kinds:
  - INDENT tokens for the indentation width;
  - CLASS tokens for a PascalCase name (the last segment of a dotted chain);
  - `{` tokens for implicit (generated) braces.
- **Line pass** (`Lines.LineLinter`). It splits the text on `'\n'` and tries four checks on
  each line: tabs, trailing whitespace, line length, then trailing semicolon. The first check
  that fires gives the line's diagnostic.
- **Aggregation** (`CoffeeLint.Lint`). It joins the two lists of diagnostics and sorts them
  by line number.

Each diagnostic is built by `createError` (`Rules.CreateError`). It takes the message from the
`RULES` registry and adds the occurrence's line number, evidence and context.

The parts of the source that change state are modelled as classes:
- `LexicalLinter` and `LineLinter` keep the source's fields (`i`, `lineNumber`, `line`,
  `tokensByLine`).
- Their `lint` loops carry invariants. These tie the loops to specification functions:
  `LexErrors`, `Indexed` and `LineErrors`.
- The `while` loop of `lintClass` is proved against `ClassNameOffset`.

The individual checks, `lintBrace`, `lintIndentation` and the option merge are pure
functions, as in the source.

Two details of the code shape the model:
- **The semicolon option.** `DEFAULT_CONFIG` names the key `trailingSemicolons`
  (lib/coffeelint.js:55). `checkTrailingSemicolon` reads `config.trailingSemiColons`, with a
  capital C (lib/coffeelint.js:148). So the key in the defaults never turns the check off, and
  only the capital-C key does. The model keeps both keys. `CoffeeLint.SemicolonKeyIgnored`
  proves that the lower-case key changes nothing.
- **The generated flag.** The two token checks test `generated` differently.
  `lintIndentation` skips a token whose `generated` property is present at all
  (`token.generated != null`, lib/coffeelint.js:234). `lintBrace` fires only when it is truthy
  (`token.generated`, lib/coffeelint.js:224). Tokens therefore carry `generated` and `newLine`
  as `Option<bool>`, so presence and truthiness are distinct.

Token values are strings or numbers (`Tokens.Value`). An INDENT token's width is compared with
the expected indent by JavaScript's strict `!==`, so a string width always differs from it.
A `false` line length is written 0. Like `false`, 0 turns the length check off.

## Model

| member | source | states |
|---|---|---|
| `Config.Defaults` | lib/coffeelint.js:79-81 | Each of the eight keys is the user's value when given, otherwise the base's. |
| `Config.Resolve` | lib/coffeelint.js:283-288 | Each option comes from the user when given, otherwise from `DEFAULT_CONFIG`. `trailingSemiColons` is false unless the user gives it. When the resolved `tabs` is true, `indent` is 1, whatever the user passed. |
| `Config.ResolveIsProjection` | lib/coffeelint.js:49-57 | No options resolve to the defaults. A configuration whose indent is 1 whenever tabs are allowed, spelled out in full, resolves back to itself. Resolving a spelled-out resolution again changes nothing. |
| `Rules.CreateError` | lib/coffeelint.js:83-87 | A diagnostic built for a rule carries that rule's registry message. |
| `Rules.IdInjective` | lib/coffeelint.js:25-47 | Different rules have different registry keys, so the key (`Rules.Id`, the `rule` field of the source's diagnostics) identifies the rule. |
| `Text.LeadingWhitespace` | lib/coffeelint.js:120 | `line.split(/\S/)[0]` is a prefix of the line, made only of whitespace. It is maximal: it is the whole line, or the next character is not whitespace. |
| `Text.TabInLeadingWhitespace` | lib/coffeelint.js:120-121 | The indent prefix contains a tab iff some tab of the line has only whitespace before it. |
| `Text.EndsWithWhitespaceIff` | lib/coffeelint.js:60 | `/\s+$/` matches iff some non-empty suffix of the line is all whitespace. |
| `Text.Split` | lib/coffeelint.js:102 | `split('\n')` yields at least one piece, and no piece holds a line feed. |
| `Text.JoinSplit` | lib/coffeelint.js:102 | Joining the pieces with `'\n'` gives back the source, so splitting loses nothing. |
| `Text.SplitLine` | lib/coffeelint.js:102 | A line without a line feed, followed by one, is the first piece, and the rest splits on its own. |
| `Text.SplitSingleLine` | lib/coffeelint.js:102 | Text without a line feed splits into itself alone. |
| `Text.NatToString` | lib/coffeelint.js:238 | The decimal text of a number is non-empty, is all digits and has no leading zero. |
| `Text.ParseNatToString` | lib/coffeelint.js:238 | Reading back the decimal text of a natural number gives the number. |
| `Text.IntToStringRoundTrip` | lib/coffeelint.js:238 | Reading back the decimal text of any integer, negative ones included, gives the integer. |
| `Tokens.AddToken` | lib/coffeelint.js:204-207 | The token's line becomes a key. Its bucket is the old bucket with the token appended, or just the token when the line was new. |
| `Tokens.AddTokenLeavesOtherLines` | lib/coffeelint.js:204-207 | Filing a token adds only its own line to the keys and leaves every other bucket unchanged. |
| `Tokens.IndexKeys` | lib/coffeelint.js:204-207 | After filing the tokens in order, line `k` is a key iff some token lies on it. |
| `Tokens.IndexBuckets` | lib/coffeelint.js:204-207 | After filing the tokens in order, the bucket of each key holds exactly the tokens on that line, in stream order. |
| `Tokens.IndexIsFilter` | lib/coffeelint.js:204-207 | After the tokens are filed in order, line `k` is a key iff some token lies on it. Its bucket is exactly the tokens on line `k`, in stream order. |
| `Lexical.Peek` | lib/coffeelint.js:274-277 | `peek(n)` yields a token iff position `i + n` lies inside the stream, and then it is the token there. |
| `Lexical.LintBrace` | lib/coffeelint.js:221-229 | `no_implicit_braces` fires iff `implicitBraces` is set and the token's `generated` is true. The diagnostic has the given line, the registry message, and no evidence or context. |
| `Lexical.LintIndentation` | lib/coffeelint.js:231-245 | An indentation diagnostic has the given line, the registry message and a context. It fires only when `indent` is non-zero and the width differs from it by strict comparison. |
| `Lexical.IndentationExemptions` | lib/coffeelint.js:231-245 | No indentation diagnostic when any of these holds: `indent` is falsy; the token has a `generated` property; the token two places back is `+`. Otherwise it fires iff the width differs from `indent`. Its context is `Expected `, then the expected width (which reads back as `indent`), then ` spaces and got ` and the token's width. |
| `Lexical.IndentationContextParts` | lib/coffeelint.js:238 | The context text splits back into its parts: `Expected `, the decimal width that parses back to the expected indent, and ` spaces and got ` followed by the actual width. |
| `Lexical.ClassNameOffset` | lib/coffeelint.js:252-258 | The dotted-chain scan, which terminates (`decreases` the distance to the end of the stream). When it succeeds, it ends inside the stream at a truthy value. |
| `Lexical.ClassNameOffsetSpec` | lib/coffeelint.js:252-258 | The scan stops at the last segment of the chain. Every second token after the start is a `.`, and the token after the stop is not. |
| `Lexical.ClassError` | lib/coffeelint.js:247-266 | With `o` the offset where the scan stops: `o` is odd, every second token from the CLASS token up to `o` is a `.`, and the token after `o` is not. A class is reported iff `camelCaseClasses` is set and the value at `o` does not match `^[A-Z][a-zA-Z\d]*$`. The report has that value as evidence, the given line and the registry message. |
| `Lexical.TokenError` | lib/coffeelint.js:201-229 | Dispatch on the token kind. A diagnostic carries the token's line, its registry message and a lexical rule. INDENT gives the indentation check's result and CLASS the class check's. `{` fires iff `implicitBraces` is set and the token is generated. Other kinds never fire. |
| `Lexical.LexErrorsUpToSpec` | lib/coffeelint.js:188-199 | Over the first `n` tokens: there are at most `n` diagnostics. Each is the diagnostic of one of those tokens and carries its line. Every token that fires is reported. |
| `Lexical.LexErrorsSpec` | lib/coffeelint.js:188-199 | The same for the whole stream. Each diagnostic is also well formed and comes from a lexical rule. |
| `Lexical.LexErrorsIgnoreSemicolonKey` | lib/coffeelint.js:55 | The `trailingSemicolons` option plays no part in the lexical pass. |
| `Lexical.TokenErrorIgnoresSemicolonKey` | lib/coffeelint.js:55 | The `trailingSemicolons` option does not change any single token's result. |
| `Lexical.LexicalLinter.constructor` | lib/coffeelint.js:180-186 | The linter starts at position 0 with an empty index. The tokens are taken as given. |
| `Lexical.LexicalLinter.Lint` | lib/coffeelint.js:188-199 | The pass returns `LexErrors`. The index becomes the old index with every token filed in stream order. `i` and `lineNumber` end at the last token. |
| `Lexical.LexicalLinter.LintToken` | lib/coffeelint.js:201-219 | The token is appended to its line's bucket, and `lineNumber` becomes its line. The result is the token's diagnostic. |
| `Lexical.LexicalLinter.LintClass` | lib/coffeelint.js:247-266 | The `while` loop over `offset` finds the chain's last segment and reports it as `ClassError` does. |
| `Lines.LineHasToken` | lib/coffeelint.js:166-168 | A line the index does not hold has no tokens. |
| `Lines.GetLineTokens` | lib/coffeelint.js:170-172 | The line's bucket when the index holds the line, and the empty list otherwise. |
| `Lines.CreateLineError` | lib/coffeelint.js:159-164 | A line diagnostic has the given rule and line number, the whole line as evidence, no context, and the registry message. |
| `Lines.CheckTabs` | lib/coffeelint.js:117-126 | A `no_tabs` diagnostic is the line diagnostic for that rule. It appears only when tabs are disallowed, the line is in the index and the line contains a tab. Allowed tabs or an unindexed line give none. |
| `Lines.CheckTrailingWhitespace` | lib/coffeelint.js:128-134 | A `no_trailing_whitespace` diagnostic is the line diagnostic for that rule. It appears only for a non-empty line with `trailing` unset. `trailing` or an empty line give none. |
| `Lines.CheckLineLength` | lib/coffeelint.js:136-144 | A `max_line_length` diagnostic is the line diagnostic for that rule. It appears only when the limit is non-zero and below the line's length. |
| `Lines.CheckTrailingSemicolon` | lib/coffeelint.js:146-157 | A `no_trailing_semicolons` diagnostic is the line diagnostic for that rule. It appears only when `trailingSemiColons` is unset, the line is in the index and the line ends in `;`. A last token with a `newLine` property suppresses it. |
| `Lines.LineError` | lib/coffeelint.js:113-115 | A line's diagnostic has that line's number, the line as evidence, the registry message and one of the four line rules. |
| `Lines.LineErrorUnfolded` | lib/coffeelint.js:113-115 | The first-hit search over the fixed rule order equals the source's `\|\|` chain of the four checks. |
| `Lines.FirstHitSpec` | lib/coffeelint.js:113-115 | A first-hit search returns nothing iff no check fires. Otherwise it returns the result of a check that fires, and every earlier check does not fire. |
| `Lines.LineErrorPrecedence` | lib/coffeelint.js:113-115 | A line gets at most one diagnostic: that of the first rule among tabs, trailing whitespace, length and semicolon that fires. The diagnostic carries that rule, the line's number, the line as evidence and the registry message. |
| `Lines.CheckTabsIff` | lib/coffeelint.js:117-126 | `no_tabs` fires iff all of these hold: tabs are disallowed; the line is a key of the index; a tab comes before any non-whitespace character. |
| `Lines.CheckTrailingWhitespaceIff` | lib/coffeelint.js:128-134 | `no_trailing_whitespace` fires iff `trailing` is false and a non-empty suffix of the line is whitespace. |
| `Lines.LineLengthBoundary` | lib/coffeelint.js:136-144 | With a positive limit, the check fires iff the line is longer than the limit. A limit of 0 never fires, and a negative limit (truthy in JavaScript) always fires. The bound is strict: a line of exactly `lineLength` characters passes, and one of `lineLength + 1` is flagged. |
| `Lines.CheckTrailingSemicolonIff` | lib/coffeelint.js:146-157 | `no_trailing_semicolons` fires iff all of these hold: `trailingSemiColons` is unset; the line ends in `;`; the line is a key of the index; the last token of its bucket has no `newLine` property. The key `trailingSemicolons` never changes the result. |
| `Lines.LineErrorsUpToSpec` | lib/coffeelint.js:99-111 | Over the first `n` lines, line numbers strictly increase, so each line has at most one diagnostic. Each diagnostic is that line's `lintLine` result. Every line that fires is reported. |
| `Lines.LineErrorsUpToOrdered` | lib/coffeelint.js:99-111 | Over the first `n` lines, every diagnostic's line number is below `n`, and the line numbers strictly increase. |
| `Lines.LineErrorsSpec` | lib/coffeelint.js:99-111 | The same for all lines. Each diagnostic also has a line rule, the line's text as evidence and the registry message. |
| `Lines.TrailingAllowedSuppresses` | lib/coffeelint.js:128-134 | With `trailing` set, the line pass yields no `no_trailing_whitespace`. |
| `Lines.TabsAllowedSuppresses` | lib/coffeelint.js:117-119 | With `tabs` set, the line pass yields no `no_tabs`. |
| `Lines.LineErrorsIgnoreSemicolonKey` | lib/coffeelint.js:146-148 | The `trailingSemicolons` option plays no part in the line pass. |
| `Lines.LineErrorIgnoresSemicolonKey` | lib/coffeelint.js:146-148 | The `trailingSemicolons` option does not change any single line's result. |
| `Lines.LineLinter.constructor` | lib/coffeelint.js:91-97 | The linter holds the source, the options and the index, and starts at line 0. |
| `Lines.LineLinter.Lint` | lib/coffeelint.js:99-111 | The pass returns `LineErrors` over `source.split('\n')`. `lineNumber` and `line` end at the last line. |
| `Lines.LineLinter.LintLine` | lib/coffeelint.js:113-115 | The four checks, run in order until one fires, give the first-hit diagnostic of the line. |
| `CoffeeLint.InsertByLine` | lib/coffeelint.js:294-296 | Inserting into a list sorted by line keeps it sorted. The result is the list with the new diagnostic added. |
| `CoffeeLint.ConsSorted` | lib/coffeelint.js:294-296 | The insertion step past the head: when each element of a sorted new tail is either the inserted diagnostic (later than the head) or an element of the old tail, the head followed by the new tail is sorted. |
| `CoffeeLint.SortByLine` | lib/coffeelint.js:294-296 | The sort returns a permutation of its input that is non-decreasing in `lineNumber`. |
| `CoffeeLint.Lint` | lib/coffeelint.js:283-298 | The result is a permutation of the lexical diagnostics followed by the line diagnostics, computed with the resolved options. It is sorted by line, and every diagnostic carries its rule's message. |
| `CoffeeLint.FindingsWellFormed` | lib/coffeelint.js:83-87 | Every diagnostic of either pass carries the registry message of its rule. |
| `CoffeeLint.IndexFeedsLineChecks` | lib/coffeelint.js:166-172 | For the index the lexical pass builds, a line has tokens iff some token lies on it. The semicolon check sees the last token of the stream on that line. |
| `CoffeeLint.TrailingOptionSuppresses` | lib/coffeelint.js:128-134 | With `trailing` set, no `no_trailing_whitespace` diagnostic appears in the result. |
| `CoffeeLint.TabsOptionSuppresses` | lib/coffeelint.js:285-287 | When the resolved options allow tabs, the expected indent is 1 and no `no_tabs` diagnostic appears. |
| `CoffeeLint.SemicolonKeyIgnored` | lib/coffeelint.js:148 | Setting `trailingSemicolons` to any value leaves the diagnostics unchanged. |
| `CoffeeLint.IndentationScenario` | lib/coffeelint.js:237-241 | An INDENT of width 4 on line 2, with default options, is reported on line 2 with context `Expected 2 spaces and got 4`. |
| `CoffeeLint.TabsScenario` | lib/coffeelint.js:287 | With tabs allowed, an INDENT of width 1 passes whatever indent the user gave. |
| `CoffeeLint.LongLineScenario` | lib/coffeelint.js:136-144 | With default options, a line of 81 characters gets `max_line_length` and a line of 80 gets nothing. |
| `CoffeeLint.ClassScenario` | lib/coffeelint.js:247-266 | `class a.b.foo` is reported with the evidence `foo`. |
| `CoffeeLint.TabLineScenario` | lib/coffeelint.js:117-126 | The source `"\tx = 1"`, whose line 0 holds a token, gets exactly one diagnostic from the line pass: `no_tabs` on line 0. |
| `CoffeeLint.TabLineFires` | lib/coffeelint.js:113-126 | With default options, the line `"\tx = 1"` in the index gets `no_tabs`. |
| `CoffeeLint.TrailingSpaceScenario` | lib/coffeelint.js:128-134 | The source `"foo   \n"` gets exactly one diagnostic from the line pass: `no_trailing_whitespace` on line 0. The empty line after it gets none. |
| `CoffeeLint.TrailingSpaceFires` | lib/coffeelint.js:113-134 | With default options, the line `"foo   "` gets `no_trailing_whitespace`, whatever the index holds. |
| `CoffeeLint.EmptyLineQuiet` | lib/coffeelint.js:113-157 | With default options, an empty line gets no diagnostic. |

## Left out

- The tokenizer (`CoffeeScript.tokens`, lib/coffeelint.js:182) is not part of this model. Its
  output is a parameter of `LexicalLinter`'s constructor and of `CoffeeLint.Lint`.
- The module and global export code (lib/coffeelint.js:13-23) and `VERSION` are not modelled.
  They have no behaviour to check.
- `extend`'s generic copying of keys (lib/coffeelint.js:66-77) is replaced by a record with
  fixed fields, and unknown keys are dropped. A key given with the value `null` or `undefined`
  is treated as not given. Option values are typed as booleans and integers; JavaScript
  accepts any value there.
- JavaScript's `\s` is modelled as a fixed, finite set (`Text.IsWhitespace`): the ECMAScript
  whitespace and line-terminator code points of current Unicode. Older engines also counted
  U+180E. The regular expressions are written as character predicates, not run by a regex engine.
- Line length counts characters (Unicode scalar values). JavaScript's `length` counts UTF-16
  code units, so a character outside the Basic Multilingual Plane counts 2 there and 1 here.
- `CoffeeLint.SortByLine`: the in-place `errors.sort` is modelled as a function on sequences.
  Its contract states only "sorted permutation". The order of diagnostics that share a line is
  not specified by the source, and the model makes no promise about it.
- `Lexical.LexicalLinter.Lint` requires `ClassChainsEnd`: every CLASS token is followed by a
  dotted chain that ends at a truthy value inside the stream. Without it the source throws
  (`peek` returns null and is indexed) or loops forever (a falsy name).
- A numeric class-name value is checked and reported as its decimal text. The source keeps
  the raw number as evidence.
- Token values are strings or integers. Other JavaScript values, non-integer numbers and `NaN`
  are not modelled, and integers are unbounded where JavaScript uses doubles.
- `LineLinter.line` starts as the empty string; the source starts it as `null`. No check reads
  it before it is set.
