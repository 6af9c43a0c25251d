# mathlingua-test-editor: the text-processing core in Dafny

The editor is a browser page around a Monaco code editor for the
Mathlingua language. Besides the user interface it holds four pieces of
plain text processing, and they are what this project models:

- **The tokenizer** (`src/Lexer.ts`). A pre-pass first blanks out escaped
  delimiters. Then one left-to-right scan cuts the text into tokens:
  newlines, `'…'`, `"…"` and `` `…` `` spans, `::…::` fenced spans, and
  maximal plain runs. Each token is stamped with the 0-based line on
  which it starts.
- **The validator** (`src/Analyzer.ts`, with `src/Syntax.ts`):
  - the plain-run tokens are merged into one `Line` per source line, and
    each line is summarised by its leading run of spaces and dots and its
    name (the text up to the first `:`);
  - the lines are grouped by indentation with a stack;
  - each group's section names are aligned against the grammar template
    filed under the group's first name. This yields `Expected '…'` markers
    for required sections that are missing and `Unexpected section '…'`
    markers for sections that are left over.
- **The outline pipeline** (`src/Util.ts`):
  - `removeStrings` blanks out quoted text;
  - `getLinesAndIndents` turns the lines into records, with `null` for a
    blank line;
  - `getBreakdown` groups the records with the same stack discipline as
    the validator.
- **The completion provider** (`src/App.tsx`). From the cursor's line it
  scans upward for the sections already written in the current group.
  It finds that group's template in its own copy of the table and
  suggests the section names that may still follow, in template order.
  When no template matches, it suggests every head instead.

Dafny modules:

| module | file | models |
|---|---|---|
| `Text` | text.dfy | the JavaScript string operations the code relies on: `indexOf`, `replace` with a string (first occurrence only), `replace` with a global literal regex, `split` on one character. Each is given its meaning (first occurrence, count, inverse) |
| `LineInfo` | lineinfo.dfy | the leading-run and name rule (`getLineInfo`, the same loops as in `toLines` and `getLinesAndIndents`) |
| `Lexer` | lexer.dfy | `tokenize`, `removeEscapedChars`, `isSpecialChar` |
| `Grouper` | grouper.dfy | the stack grouping of `toGroups` and `getBreakdown`, as a specification function plus the imperative loop proved equal to it |
| `Analyzer` | analyzer.dfy | `toLines`, `toGroups`, `getDiagnostics` |
| `Syntax` | syntax.dfy | the template table, `createSyntaxMap`, `loadRawMathlinguaSyntax`, `loadSyntaxGroups` |
| `Util` | util.dfy | `removeStrings`, `getLinesAndIndents`, `getBreakdown` |
| `Completion` | completion.dfy | `provideCompletionItems`, `SYNTAX_GROUPS` |

Each loop of the source becomes a method with a `while` loop. The method
is proved equal to a specification function, and the properties are
proved as lemmas about that function. Where a source function runs
several loops one after another, each loop is its own method, and the
method for the source function calls them in order. Those source
functions are `tokenize`'s branches, the two loops of `getLineInfo`,
`toGroups`'s pop and flush loops, the three phases of `getDiagnostics`,
and the block skip of `getLinesAndIndents`.

The grouping stack crashes in the source when a line is indented less
than the first line of every open group: `stack[stack.length - 1]` is
then `undefined`. The model returns `None` at that point, and
`Grouper.BreakdownCrashes` states exactly when this happens.

## Model

| member | source | states |
|---|---|---|
| Text.Count | src/Lexer.ts:25-31 | The number of times a character occurs, which is zero exactly when the character is absent; line numbers are counts of `\n` |
| Text.IndexOf | src/Analyzer.ts:30 | `indexOf` yields -1 or a position at which the whole pattern fits |
| Text.IndexOfFirst | src/Analyzer.ts:49 | -1 means the pattern occurs nowhere; otherwise the result is an occurrence and no earlier position is one |
| Text.ReplaceFirst | src/Analyzer.ts:25 | `replace` with a string pattern leaves the text unchanged when the pattern is absent, and otherwise changes its length by exactly one pattern-to-replacement swap |
| Text.RemoveFirstReplace | src/Analyzer.ts:25 | Dropping the first occurrence of a character is `replace(c, "")` |
| Text.ReplaceAllKeepsLength | src/Lexer.ts:119 | A global replacement by text of the same length keeps the length |
| Text.ReplaceAllShrinks | src/Lexer.ts:119 | A global replacement by shorter text never lengthens the text |
| Text.ReplaceAllKeepsCount | src/Lexer.ts:119 | A character in neither the pattern nor the replacement keeps its number of occurrences |
| Text.ReplaceAllAbsent | src/Lexer.ts:119 | Text that never holds the pattern's first character is unchanged |
| Text.Without | src/Util.ts:49-54 | `replace(/c/g, "")` leaves no `c` and is no longer than the input |
| Text.WithoutEmpty | src/Util.ts:49-54 | The removal leaves the empty string exactly when every character was `c`, which is the blank-line and hyphen-rule tests |
| Text.WithoutReplaceAll | src/Analyzer.ts:66 | Removing every `c` is the global replacement of `c` by nothing |
| Text.WithoutOnce | src/App.tsx:244 | With at most one `c`, the global and the first-occurrence removal agree |
| Text.Split | src/Syntax.ts:91 | `split` gives one more part than there are separators, and no part holds a separator |
| Text.JoinSplit | src/Syntax.ts:91 | Joining the parts of `split` with the separator gives back the text |
| LineInfo.RunLength | src/App.tsx:339-345 | The indent is the length of the maximal leading run of spaces and dots |
| LineInfo.NameLength | src/App.tsx:347-349 | The name stops at the first `:` or at the end |
| LineInfo.Summary | src/App.tsx:333-352 | `hasDot` holds exactly when the leading run holds a dot; the name has no `:` and is the text right after the run |
| LineInfo.GetLineInfo | src/App.tsx:333-352 | The two loops compute the summary: the run consists of spaces and dots and is maximal, and the name ends at a `:` or at the end |
| LineInfo.LeadingRun | src/App.tsx:339-345 | The first loop computes the maximal run and whether it holds a dot |
| LineInfo.NameFrom | src/App.tsx:347-349 | The second loop collects the text up to the first `:` |
| LineInfo.RunLengthExact | src/App.tsx:339-345 | A loop index that has passed only run characters and stopped at a non-run character or the end is the run length |
| LineInfo.NameLengthExact | src/App.tsx:347-349 | A loop index that has passed no `:` and stopped at one or at the end is the name length |
| Lexer.RemoveEscapedChars | src/Lexer.ts:118-120 | The escape pre-pass keeps every line break, never lengthens the text, and leaves text without `\` or `{` unchanged |
| Lexer.FenceEscapeKeepsLength | src/Lexer.ts:119 | Rewriting `{::}` as four spaces keeps the length |
| Lexer.IsSpecialChar | src/Lexer.ts:122-124 | A plain run stops exactly at a quote, a double quote, a backtick or a line break (a one-character string is never `'::'`) |
| Lexer.ColonsAt | src/Lexer.ts:34-41 | The two-character test `text[i] + (text[i+1] \|\| '')` is `::` exactly when two colons occur at `i` |
| Lexer.ScanQuoted | src/Lexer.ts:50-102 | A quote scan ends right after the matching quote or at the end of the text, contains the quote character nowhere in between, and reports the line count at its end |
| Lexer.ScanFenced | src/Lexer.ts:32-49 | A fence scan ends right after the next `::` or at the end, with no `::` in between, and reports the line count at its end |
| Lexer.ScanPlain | src/Lexer.ts:103-112 | A plain run is non-empty, holds no special character and no line break, and stops at a special character or the end |
| Lexer.NextToken | src/Lexer.ts:22-113 | One step of the scan yields a non-empty token, which is exactly the next slice of the text, typed by its first character and stamped with the line it starts on |
| Lexer.FencedToken | src/Lexer.ts:32-49 | The `::` branch yields a `ColonColon` token of the right shape |
| Lexer.QuotedToken | src/Lexer.ts:50-102 | The three quote branches yield a token of the matching type whose text is a closed span (or runs to the end of the text) |
| Lexer.PlainToken | src/Lexer.ts:103-112 | The plain branch yields a maximal run |
| Lexer.ScannedStep | src/Lexer.ts:22-113 | Appending a token that covers the next slice keeps the scan invariant: the tokens concatenate to the text read so far, are well-shaped, carry their line counts, and plain runs are maximal |
| Lexer.Tokenize | src/Lexer.ts:17-116 | The tokens concatenate exactly to the pre-processed text, none is empty, each has the shape its type demands (only the last may be unterminated), each is stamped with the number of line breaks before it, and no plain run is followed by a character that could have extended it |
| Lexer.FirstToken | src/Lexer.ts:22-113 | Any list of tokens with those properties starts with the token the scan's branch for the first characters cuts (a newline; up to and including the next `::`; up to and including the closing quote; the plain run up to the next special character; or the rest of the text when nothing closes), followed by such a list for the rest of the text |
| Lexer.CutsAgree | src/Lexer.ts:22-113 | Two token lists with those properties for the same text have the same length and agree token by token in text and type |
| Lexer.TokenizationUnique | src/Lexer.ts:17-116 | The properties `Tokenize` promises determine its result: two token lists that both have them for the same text are equal, line stamps included |
| Lexer.ConcatSplit | src/Lexer.ts:17-116 | The concatenation of the tokens splits at any index |
| Lexer.CountedLinesNondecrease | src/Lexer.ts:22-31 | Line numbers never decrease along the tokens |
| Lexer.NewlineAdvancesLine | src/Lexer.ts:25-31 | The token after a newline token is on the next line |
| Grouper.PopAbove | src/Analyzer.ts:162-170 | Popping leaves a prefix of the stack whose top head is no deeper than the new line |
| Grouper.FlushAll | src/Analyzer.ts:174-178 | Flushing empties the stack |
| Grouper.GroupLines | src/Analyzer.ts:133-179 | The grouping loop computes `Breakdown`; on success every group is non-empty, its head is its shallowest line, and the groups hold exactly the input lines (as a multiset) |
| Grouper.FlushLoop | src/Analyzer.ts:174-178 | The flush loop computes `FlushAll` |
| Grouper.PopLoop | src/Analyzer.ts:162-170 | The pop loop computes `PopAbove` |
| Grouper.PushLine | src/Analyzer.ts:146-171 | The case analysis for a non-null line computes one `Step` |
| Grouper.StepInv | src/Analyzer.ts:146-171 | One step keeps the stack invariant: stacked heads strictly deepen, and each group's head is its shallowest line |
| Grouper.RunInv | src/Analyzer.ts:136-172 | The invariant holds after any number of lines |
| Grouper.StepCrashes | src/Analyzer.ts:162-170 | A line crashes the step exactly when the stack is non-empty and the line is shallower than the bottom group's head |
| Grouper.PopAboveEmpties | src/Analyzer.ts:162-170 | The pop loop empties the stack exactly when the bottom head is deeper than the new line |
| Grouper.RunAppend | src/Analyzer.ts:136-172 | Running two stretches of lines is running the first and then the second from where it stopped |
| Grouper.CrashWitness | src/Analyzer.ts:136-172 | A run fails exactly when some line crashes the step it reaches |
| Grouper.RunMass | src/Analyzer.ts:136-172 | No line is lost or duplicated: the stacked and emitted lines are the initial ones plus the input |
| Grouper.StepMass | src/Analyzer.ts:146-171 | One step adds exactly its line to the stacked and emitted lines |
| Grouper.RunShift | src/Analyzer.ts:136-172 | Groups already emitted never influence later grouping |
| Grouper.BlankSplits | src/Analyzer.ts:137-144 | A blank line splits the grouping into two independent halves |
| Grouper.BlankIdempotent | src/Analyzer.ts:137-144 | Two blank lines group like one |
| Grouper.StepOrdered | src/Analyzer.ts:146-171 | A step with a line later than every stacked or emitted one keeps each group in input order |
| Grouper.RunOrdered | src/Analyzer.ts:136-172 | Lines given in increasing order stay in increasing order within every group |
| Grouper.BreakdownShape | src/Analyzer.ts:133-179 | Every group is non-empty and headed by its shallowest line |
| Grouper.BreakdownConserves | src/Analyzer.ts:133-179 | The groups hold exactly the input lines, as a multiset |
| Grouper.BreakdownOrdered | src/Analyzer.ts:133-179 | Increasing input order is kept inside every group |
| Grouper.BreakdownCrashes | src/Analyzer.ts:162-170 | The grouping throws exactly when some line dedents below every open group |
| Analyzer.PlainTokens | src/Analyzer.ts:96 | The filter keeps exactly the `Other` tokens |
| Analyzer.PlainTokensCount | src/Analyzer.ts:96 | Each `Other` token is kept as often as it occurs in the input, and no other token is kept |
| Analyzer.PlainTokensNondecreasing | src/Analyzer.ts:96 | Filtering keeps the line numbers non-decreasing |
| Analyzer.RunLen | src/Analyzer.ts:101-103 | The merge loop consumes the maximal stretch of tokens on the current line |
| Analyzer.LinesConserve | src/Analyzer.ts:98-127 | The lines' contents concatenate back to the tokens' text |
| Analyzer.TokensHaveLines | src/Analyzer.ts:98-127 | Every token's line number appears as a line |
| Analyzer.LinesIncrease | src/Analyzer.ts:98-127 | With non-decreasing tokens, the line numbers strictly increase |
| Analyzer.LinesPlain | src/Analyzer.ts:98-127 | Lines made of plain runs are non-empty and contain no special character |
| Analyzer.LinesOf | src/Analyzer.ts:98-127 | The outer merge loop computes `LinesFrom` |
| Analyzer.CollectLine | src/Analyzer.ts:99-103 | The inner loop concatenates the maximal stretch of tokens on one line |
| Analyzer.LinesSummary | src/Analyzer.ts:105-126 | Every line carries the leading-run summary of its own content |
| Analyzer.ToLines | src/Analyzer.ts:94-131 | The lines are `LinesFrom` of the plain tokens of the text's tokenization (which `Lexer.TokenizationUnique` shows to be unique); they come in strictly increasing line order, and each is non-empty, free of quotes, backticks and line breaks, and carries its content's summary |
| Analyzer.ValuesOfItems | src/Analyzer.ts:133-179 | Lines passed to the grouping are never taken as blank lines |
| Analyzer.ToGroups | src/Analyzer.ts:133-179 | The grouping fails exactly when a line dedents below every open group; otherwise the groups are non-empty, headed by their shallowest line, hold exactly the input lines, and keep increasing line order |
| Analyzer.Wrap | src/Analyzer.ts:139-141 | Wrapping into `Group` records keeps the line sequences |
| Analyzer.ClassifyMeaning | src/Analyzer.ts:25-30 | An entry's name is the entry with its first `:` and then its first `?` removed; it is reported by the drain exactly when `?:` occurs nowhere in it; the match loop may skip it exactly when its first `?:` is its last two characters, and also when it is one character long (its `indexOf` of -1 equals its length minus two) |
| Analyzer.OmittableText | src/Analyzer.ts:30 | An entry may be skipped exactly when its first `?:` is its last two characters |
| Analyzer.ReportableWithout | src/Analyzer.ts:66 | A left-over line is reported exactly when its name is not all hyphens |
| Analyzer.MatchFrom | src/Analyzer.ts:23-42 | The match loop only advances and stops when lines or template entries run out |
| Analyzer.StopAt | src/Analyzer.ts:44-47 | The drain stops at the first empty template entry or at the end |
| Analyzer.MatchLoop | src/Analyzer.ts:23-42 | The match loop computes `MatchPhase` |
| Analyzer.DrainExpectedLoop | src/Analyzer.ts:44-63 | The drain loop reports each missing required entry up to the first empty one |
| Analyzer.DrainStep | src/Analyzer.ts:49-60 | One drain step reports the entry at the last matched line exactly when it has no `?:` |
| Analyzer.DrainActualLoop | src/Analyzer.ts:65-76 | The last loop reports the left-over lines |
| Analyzer.AlignGroup | src/Analyzer.ts:20-77 | One group's markers are those of the three phases, in order |
| Analyzer.AlignExplained | src/Analyzer.ts:20-77 | Every marker sits on a line of the group and is either `Expected` for a template entry that may not be skipped, or `Unexpected section` for that line when its name is not all hyphens |
| Analyzer.AlignBound | src/Analyzer.ts:20-77 | A group yields at most one marker per line plus one per template entry |
| Analyzer.UnexpectedExactly | src/Analyzer.ts:65-76 | The left-over phase reports exactly the left-over lines whose names are not all hyphens |
| Analyzer.NoTemplate | src/Analyzer.ts:18 | A group whose head has no template gets an `Unexpected section` marker for every line with a non-hyphen name |
| Analyzer.Conformant | src/Analyzer.ts:20-77 | A group whose line names are, in order, the names of template entries at increasing positions (template names distinct), where every entry left out is optional, gets no marker |
| Analyzer.SkipOmitted | src/Analyzer.ts:30-31 | The match loop moves past optional entries that do not name the current line |
| Analyzer.Diagnose | src/Analyzer.ts:16-78 | The group loop concatenates every group's markers, with the template looked up under the head line's name |
| Analyzer.DiagnoseExplained | src/Analyzer.ts:16-78 | Every marker is explained by some group and that group's template |
| Analyzer.DiagnoseShape | src/Analyzer.ts:33-39 | Every marker lies on one line, starts at column 0, ends at column 1 or later, and carries an `Expected` or `Unexpected section` message |
| Analyzer.DiagnoseConformant | src/Analyzer.ts:16-78 | A document whose every group conforms to its template gets no marker |
| Analyzer.GetDiagnostics | src/Analyzer.ts:12-80 | The result is `DiagnosticsOf` the lines built from the text's (unique) tokenization: `None` exactly when the grouping throws, and otherwise the markers of all groups aligned against their templates, in order; every marker has the shape above |
| Text.Utf16Length | src/Analyzer.ts:37 | The JavaScript length of a string lies between its number of characters and twice that, and equals the number of characters when every character is in the Basic Multilingual Plane |
| Syntax.CleanNameReplace | src/Analyzer.ts:25 | The entry name is the entry with its first `:` and then its first `?` removed |
| Syntax.EntriesJoin | src/Syntax.ts:91 | The section list of a raw entry is non-empty and joins back to the entry without its first `[]\n` |
| Syntax.SyntaxMapKeys | src/Syntax.ts:88-95 | The keys are exactly the entries' cleaned heads |
| Syntax.SyntaxMapHeads | src/Syntax.ts:88-95 | Each value is non-empty and its cleaned head is its key |
| Syntax.SyntaxMapLastWins | src/Syntax.ts:90-93 | An entry whose key no later entry repeats is the value filed under that key |
| Syntax.CreateSyntaxMap | src/Syntax.ts:88-95 | The loop builds the map whose keys are exactly the cleaned heads, each with a value headed by its key |
| Syntax.LoadRawMathlinguaSyntax | src/Syntax.ts:74-82 | The table loaded is the built-in one |
| Syntax.SplitTable | src/Syntax.ts:97-99 | Every raw entry is split into a non-empty list that joins back to the entry |
| Syntax.LoadSyntaxGroups | src/Syntax.ts:97-99 | The split built-in table has one list per entry, each joining back to its entry |
| Util.Unquoted | src/Util.ts:2-26 | The text with its quote characters dropped has no quote characters |
| Util.RemoveStrings | src/Util.ts:2-26 | The loop computes the stack scan `ScanText` |
| Util.ScanLength | src/Util.ts:2-26 | The output has one character for every non-quote character of the input |
| Util.ScanPrefix | src/Util.ts:5-24 | The output grows monotonically: a prefix's output is a prefix of the whole output |
| Util.RemoveStringsAt | src/Util.ts:13-23 | Each non-quote character is copied when outside every string, and otherwise becomes `-` unless it is a line break |
| Util.RemoveStringsNoQuotes | src/Util.ts:7-12 | The output contains no quote character |
| Util.RemoveStringsNewlines | src/Util.ts:18-19 | Every line break survives, so the line count is kept |
| Util.RemoveStringsPlain | src/Util.ts:13-16 | Text without quotes is unchanged and leaves no string open |
| Util.RemoveStringsIdempotent | src/Util.ts:2-26 | Removing strings twice is removing them once |
| Util.IndexOfZero | src/Util.ts:41 | `indexOf(p) === 0` is the starts-with test |
| Util.BlockEnd | src/Util.ts:43-45 | The block skip stops at the next line starting with `::`, or at the end |
| Util.Next | src/Util.ts:40-83 | Each pass of the loop advances |
| Util.GetLinesAndIndents | src/Util.ts:35-86 | The loop computes `LinesAndIndents` |
| Util.SkipBlock | src/Util.ts:41-48 | A `::` line skips up to and including the closing `::` line and yields nothing |
| Util.LineRecords | src/Util.ts:49-82 | A line outside a block yields `null` when blank, nothing for a hyphen rule, a `[` line or a quoted name, and otherwise its record |
| Util.CollectSound | src/Util.ts:39-84 | The invariant of the loop: every record describes its own line and records come in increasing line order |
| Util.LinesAndIndentsSound | src/Util.ts:35-86 | Every record is made from the line it numbers (1-based): a line that is not a fence, not blank, not a rule, not a `[` line, whose summary is the record's and whose name does not start with a quote. Records come in strictly increasing line order |
| Util.LinesAndIndentsPlain | src/Util.ts:49-82 | Without `::` blocks every line is handled on its own, in order |
| Util.GetBreakdown | src/Util.ts:88-128 | The breakdown fails exactly when a record dedents below every open group; otherwise the groups are non-empty, headed by their shallowest record, hold exactly the records, and keep line order |
| Completion.SyntaxGroups | src/App.tsx:405-406 | One section list per raw entry, each joining back to the entry without its first `[]\n` |
| Completion.SectionName | src/App.tsx:269 | A cleaned section name has no `?` |
| Completion.SectionNameReplace | src/App.tsx:269 | The cleaning is `replace(/:/, '')` followed by `replace(/\?/g, '')` |
| Completion.SectionNameClean | src/App.tsx:244 | With at most one `?` this is the validator's cleaning |
| Completion.Top | src/App.tsx:227-239 | The upward scan ends at a line between 1 and the cursor's line |
| Completion.Names | src/App.tsx:233-234 | One name per scanned line, top to bottom |
| Completion.TopTaken | src/App.tsx:230-232 | No scanned line is shallower than the cursor's line or nameless |
| Completion.TopOpensOnce | src/App.tsx:235-237 | Below the top, no scanned line is a dotted line at the cursor's indent |
| Completion.TopEnds | src/App.tsx:228-239 | The scan stops at line 1, under a shallower or nameless line, or at a dotted line at the cursor's indent |
| Completion.UsedSections | src/App.tsx:212-239 | The loop collects the names from the top of the group down to the line above the cursor; the start name is the first of them, or the cursor line's own name |
| Completion.FirstGroupFirst | src/App.tsx:243-248 | The group found is the first whose cleaned head is the start name, and none means no head matches |
| Completion.FindGroup | src/App.tsx:242-248 | The loop finds the first matching group |
| Completion.ForwardScan | src/App.tsx:270-279 | The loop computes `Pos` |
| Completion.PosAbsent | src/App.tsx:274-279 | A used name missing from the template sends the scan to the end |
| Completion.PosLast | src/App.tsx:274-279 | A scan that stops inside the template stops at the last used name |
| Completion.PosCovers | src/App.tsx:274-279 | Every used name occurs in the template up to where the scan stops |
| Completion.CompletionsNoTemplate | src/App.tsx:255-266 | Without a matching group, every raw head is offered, in table order |
| Completion.CompletionsAbsent | src/App.tsx:274-305 | A used section that is not in the template leaves only "No suggestions" |
| Completion.CompletionsFollow | src/App.tsx:268-305 | With a template, the offers are the sections after the last used one, in order, each inserted with `:` and sorted by `a`, `b`, …; none left gives "No suggestions" |
| Completion.SortKeysIncrease | src/App.tsx:284-292 | Sort keys increase with the position, as long as they do not wrap around |
| Completion.ProvideCompletionItems | src/App.tsx:205-310 | The provider computes `Completions` and never answers with an empty list when there are templates |
| Completion.ProvideFromSyntaxGroups | src/App.tsx:207-208 | With the built-in groups the answer is never empty |

## Left out

- The user interface of `src/App.tsx` (theme, fonts, buttons, the Monaco set-up) and `registerSaver` are not modelled. They only wire editor events to the functions above.
- Monaco's model is replaced by a sequence of line strings with 1-based line numbers. The cursor is assumed to be on an existing line, which the editor guarantees.
- The completion items' `kind` is the same constant in every item, so it is left out.
- `localStorage` is not modelled. `loadRawMathlinguaSyntax` has its storage read disabled, and `saveRawMathlinguaSyntax` only writes to storage, so it is left out together with `SYNTAX_KEY`.
- `parseSyntaxText` in `src/Syntax.ts` is never called and is not modelled.
- Analyzer.GetDiagnostics: the source imports `RAW_MATHLINGUA_SYNTAX`, which `src/Syntax.ts` does not export (it only defines `DEFAULT_RAW_MATHLINGUA_SYNTAX`). The template list is therefore a parameter.
- Analyzer.GetDiagnostics: as in the source, the map is rebuilt for every group.
- Strings are sequences of Unicode characters, while JavaScript indexes strings by UTF-16 code units. The markers' end column uses the code-unit length (`Text.Utf16Length`), as `name.length` does in the source. Everywhere else the model counts characters. That changes nothing for the tokenizer, the line summaries or the `?:` position test, with one exception: a template entry that is a single character outside the Basic Multilingual Plane has JavaScript length 2, so the source does not skip it where the model does. No entry of the built-in table is like that.
- The `lastActual ?? {…}` fallback in the drain phase is not modelled. The drain runs only after the match loop has consumed at least one line, since groups are non-empty and the template has at least one entry there, so `i - 1` always names a line.
- The `toGroups` branch for a `null` line is kept in the shared grouping. The validator never reaches it, because `toLines` yields no `null` (`Analyzer.ValuesOfItems`).
- The two built-in tables (`src/Syntax.ts:2-50` and `src/App.tsx:354-403`) are data. No lemma is stated about individual entries, because unfolding `split` and `replace` on the long literals is too costly for the solver.
- Completion.SortKeysIncrease: `String.fromCharCode` is modelled as one UTF-16 code unit taken modulo 2^16, since lone surrogates are not Dafny characters. Order is stated only below the wrap-around.
- The comment in `provideCompletionItems` says the used sections include the cursor's line. The code starts one line above it, and the model follows the code.
- `isSpecialChar` also compares its one-character argument with `'::'`, which can never hold (`Lexer.IsSpecialChar`).
- Line numbers: the tokenizer and the validator use 0-based lines and `getLinesAndIndents` uses 1-based ones, both as in the source. Monaco's interpretation of the markers' line numbers is not modelled.
