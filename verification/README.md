# unilight `parse` in Dafny

unilight highlights source code with `parse(text, options)`, a modified
microlight scanner. It reads the text once, left to right, in a single `while`
loop. At each turn it decides whether the current token ends before the
character just read (the *finalize* test of the token's type). If it does, the
token goes to the caller's callback for its category and the result is pushed
on an output array. The loop then picks the new token's type by scanning
eleven *start* conditions from type 10 down to type 0. Finally the character
is appended to the token. The output is the array joined with no separator.

The token types, numbered as in the source: 0 anything else (white space), 1
operator or opening brace, 2 closing brace, 3 (key)word, 4 regex, 5 and 6
strings in `"` and `'`, 7 xml comment, 8 block comment, 9 `//` comment, 10 `#`
comment. The callbacks are `formatKeyword` (words in the keyword list),
`formatPonctuation` (types 1-2), `formatString` (types 4-6) and
`formatComment` (types 7-10). Other tokens are emitted unchanged.

The model has seven modules:

- `Chars`: JavaScript values as the scanner's character variables hold them.
  A `Sym` is a character, the number `1` (the initial `chr` and the escape
  mask, `Marker`) or `undefined` (a read outside the text, `Undefined`). The
  module also holds the character classes of the regular-expression tests.
- `Scanner`: the start and finalize conditions and the formatter choice. One
  turn of the loop is the pure function `Advance` on a record of the scan
  variables plus the tokens emitted so far. `Run` iterates it to the loop's
  exit. `Tokens(text)` and `Highlight(text, options)` are what `parse`
  emits and returns.
- `Parse`: the source's loop written imperatively: the loop, the nested
  decrementing start loop and the pushes onto `result`. It is proved to
  return `Highlight(text, options)`.
- `ScanInvariants`: the loop invariant. The emitted tokens followed by the
  current token spell the text read so far. Every token has the shape of its
  type. Every token that ended inside the text ended for its type's reason.
- `Properties`: what follows for every text.
  - The tokens spell the text, so plain formatters give the text back.
  - Each token's extent and reason to end.
  - Regex versus division.
  - The formatter of each type and the keyword test.
- `Corrected`: the loop with the end-of-text test it evidently intends (see
  Findings).
- `Scenarios`: concrete texts run turn by turn, including the usage example
  in the comment above `parse`.

The model keeps the source's quirks where the code has them:

- A block comment ends once the last two characters read are `*` and `/`, so
  `/*/` is already a whole comment.
- The same test reads a `*` that belongs to the token before, so in `*/*` the
  `/` is emitted alone as a block comment.
- The test that keeps `</a>` from opening a regex reads the masked previous
  character. A slash right after `<` is therefore not a regex, unless that `<`
  is escaped by a backslash: in `(\</a/` the slash opens a regex.

## Model

| member | source | states |
|---|---|---|
| Parse.Parse | src/modules/parser.js:66-201 | The output of the loop as written equals `Highlight`: the tokens of the scan, each passed through the callback of its category, joined in order. |
| Parse.FindStartType | src/modules/parser.js:170-194 | The decrementing start loop stops at the type `StartType` gives, which is the highest-numbered type whose start condition holds. |
| Parse.CloseOrExtend | src/modules/parser.js:103-197 | When the finalize test holds, a non-empty token is pushed formatted and `lastTokenType` is updated from types 1-6 only. The new token is the character, typed by the start loop. Otherwise the character extends the token. The output always holds the emitted tokens formatted. |
| Parse.Turn | src/modules/parser.js:101-197 | After the loop condition, one loop body leaves the variables equal to the fields of `Advance` and the output equal to its tokens formatted. |
| Parse.TurnIsAdvance | src/modules/parser.js:95-197 | The body's updates, stated variable by variable, are one `Advance` step; `text[pos-4]` read after the increment is `text[pos-3]` before it. |
| Chars.IsSpace | src/modules/parser.js:111 | `\s`: the white-space and line-terminator code points of JavaScript regular expressions. |
| Chars.NonSpaceTest | src/modules/parser.js:111 | `/\S/.test(chr)`: a character outside `\s`; `1` and `undefined` pass, being read as the strings `1` and `undefined`. |
| Chars.IsWordChar | src/modules/parser.js:117 | `[$\w]`: `$`, ASCII letters, digits and `_`. |
| Chars.WordTest | src/modules/parser.js:117-177 | `/[$\w]/.test(chr)`: a character of `[$\w]`; `1` and `undefined` pass. |
| Chars.IsOperatorChar | src/modules/parser.js:175 | The operator and opening-brace class, written as the character ranges it contains. |
| Chars.IsClosingBraceChar | src/modules/parser.js:176 | `]` and `)`. |
| Chars.EqualsIgnoringCase | src/modules/parser.js:156 | Equal length and, position by position, equal after ASCII case folding. |
| Chars.At | src/modules/parser.js:68-102 | Reading inside the text gives its character; reading outside either end gives `undefined`, which is never the number `1`. |
| Chars.SymText | src/modules/parser.js:197 | Appending a character adds exactly that character; appending `1` or `undefined` adds at least one character. |
| Chars.FoldCase | src/modules/parser.js:156 | The case-insensitive flag maps an ASCII letter to its own lower-case form (the letter itself, or the letter 32 code points above) and leaves every other character alone. |
| Chars.SameFold | src/modules/parser.js:156 | Two characters fold alike if and only if they are equal or are the two cases of one ASCII letter. |
| Chars.EscapedAfter | src/modules/parser.js:99 | A character is escaped when the text before it ends in a backslash that is not itself escaped; this is what the mask computes inside regexes and strings (`ScanInvariants.QuotedCloses`). |
| Chars.EscapedAfterIsOddRun | src/modules/parser.js:95-99 | Inside a regex or string, a character is escaped exactly when an odd number of backslashes precede it in the token. |
| Scanner.StartCondition | src/modules/parser.js:172-194 | Entry `t` of the start-condition array: true for type 0, the operator, closing-brace and word classes for 1-3, a slash after type 1 not preceded by a masked `<` for 4, the quotes for 5-6, `<!--`, `/*`, `//` and `#` for 7-10. |
| Scanner.StartType | src/modules/parser.js:170-194 | The new token's type as a priority chain from type 10 down to type 0. |
| Scanner.BelowTwo | src/modules/parser.js:183 | `lastTokenType < 2`, false while it is still undefined. |
| Scanner.StartTypeIsHighestMatch | src/modules/parser.js:170-194 | A type is the chosen start type if and only if its start condition holds and no higher type's does. |
| Scanner.NoHigherMatch | src/modules/parser.js:172-194 | No start condition above the chosen type holds. |
| Scanner.FinalizeCondition | src/modules/parser.js:109-128 | Entry `t` of the finalize array: a non-space for 0, always for 1-2, a character outside `[$\w]` for 3, a terminator in `prev1` after more than one character for 4-6, `-->` for 7, `*/` for 8, and false past the array's end for 9-10. |
| Scanner.ShouldClose | src/modules/parser.js:105-128 | The token closes at the end of the text, at a newline for types 9-10, or by its finalize condition. |
| Scanner.IsKeyword | src/modules/parser.js:156 | The keyword regular expression matches: the whole word equals one of the keywords, ignoring ASCII case. |
| Scanner.Style | src/modules/parser.js:134-157 | The index of the callback: 0 for type 0 and non-keyword words, 1 for keywords, 2 for types 1-2, 3 for types 4-6, 4 for types 7-10. |
| Scanner.Format | src/modules/parser.js:131-157 | The token passed through the callback `Style` selects, or unchanged for index 0. |
| Scanner.FormatAll | src/modules/parser.js:131-157 | The formatted tokens in the order they are pushed. |
| Scanner.Join | src/modules/parser.js:200 | `result.join('')`: the parts concatenated with no separator. |
| Scanner.FormatAllAt | src/modules/parser.js:131-157 | The output array has one entry per emitted token, and entry i is token i through its callback. |
| Scanner.FormatAllConcat | src/modules/parser.js:134 | Pushing two runs of tokens one after the other formats each run independently. |
| Scanner.JoinConcat | src/modules/parser.js:200 | Joining splits over concatenation of the parts. |
| Scanner.Init | src/modules/parser.js:67-93 | The initial variables: position 0, `next1` the first character, `chr` the number 1, `prev1` and `prev2` undefined, empty token of type 0, no last type, nothing emitted. |
| Scanner.MaskedPrev1 | src/modules/parser.js:95-99 | The value the loop condition stores in `prev1`: the mask `1` when the token is not a comment and `prev1` is a backslash, else `chr`. |
| Scanner.Running | src/modules/parser.js:95-100 | The loop goes on while the new `prev1` is truthy, that is, not undefined. |
| Scanner.Closes | src/modules/parser.js:95-128 | The finalize test on the values the next turn gives `chr`, `prev1`, `prev2` and `text[pos-4]`. |
| Scanner.Advance | src/modules/parser.js:95-197 | One turn keeps the variables positioned on the text (`next1` is `text[pos]`, `chr` is `text[pos-1]`, `prev1` is the mask or `text[pos-2]`) and moves one character on. |
| Scanner.Run | src/modules/parser.js:95-198 | The loop exits one or two turns past the end of the text, with the variables positioned on the text. That the second extra turn happens only after a trailing backslash is part of the invariant (`ScanInvariants.ArtefactKeepsInv`). |
| Scanner.Tokens | src/modules/parser.js:66-198 | The tokens `parse` pushes for a text, in order: those of the loop run from `Init` to its exit. |
| Scanner.Highlight | src/modules/parser.js:66-201 | What `parse` returns: the tokens formatted and joined. |
| ScanInvariants.LastSignificant | src/modules/parser.js:90-162 | `lastTokenType` is undefined or one of types 1-6. |
| ScanInvariants.EmitKeepsTokens | src/modules/parser.js:131-162 | Pushing a good token keeps the emitted tokens good and updates `lastTokenType` to the last type in 1-6. |
| ScanInvariants.NewTokenIsCurrent | src/modules/parser.js:165-197 | The one-character token that a close starts has the shape of the type the start loop chose. |
| ScanInvariants.QuotedCloses | src/modules/parser.js:99-123 | Inside a regex or string, the masked `prev1` equals the last character exactly when it is not escaped. |
| ScanInvariants.ClosedTokenIsTerminated | src/modules/parser.js:105-128 | A token that closes inside the text ended for its type's reason. White space and words end at the first character outside their class. Strings and regexes end after an unescaped terminator. Xml and block comments end after `-->` and `*/`. Line comments end before a newline. |
| ScanInvariants.ClosedTokenHasShape | src/modules/parser.js:105-194 | An emitted token has the shape of its type. An xml or block comment holds no `-->` or `*/` before its end. |
| ScanInvariants.ExtendedTokenIsCurrent | src/modules/parser.js:105-197 | A character that does not close the token extends it, and the token keeps its type's shape. |
| ScanInvariants.ExtendedXmlIsCurrent | src/modules/parser.js:99-125 | An xml comment that does not close has read no `-->` yet, so it ends at the first `-->`. |
| ScanInvariants.ExtendedBlockIsCurrent | src/modules/parser.js:99-127 | A block comment that does not close has read no `*/` yet, so it ends at the first `*/`. |
| ScanInvariants.ExtendedQuoted | src/modules/parser.js:95-123 | A regex or string extended by a character still has no unescaped terminator before its last character. |
| ScanInvariants.InitInv | src/modules/parser.js:67-93 | The initial variables satisfy the loop invariant. |
| ScanInvariants.FirstStepKeepsInv | src/modules/parser.js:95-197 | The first turn closes the empty initial token without emitting it, unless the text starts with white space. |
| ScanInvariants.InnerCloseKeepsInv | src/modules/parser.js:105-197 | A close inside the text keeps the invariant. |
| ScanInvariants.InnerExtendKeepsInv | src/modules/parser.js:105-197 | An extension inside the text keeps the invariant. |
| ScanInvariants.EndKeepsInv | src/modules/parser.js:101-197 | At the end of the text the last token is emitted; the token `undefined` is then started as a word. |
| ScanInvariants.ArtefactKeepsInv | src/modules/parser.js:95-197 | An extra turn past the end happens only after a text ending in a backslash, and it emits `undefined` as a word. |
| ScanInvariants.AdvanceKeepsInv | src/modules/parser.js:95-198 | Every turn keeps the invariant. |
| ScanInvariants.RunKeepsInv | src/modules/parser.js:95-198 | The whole loop keeps the invariant. |
| ScanInvariants.FinalInv | src/modules/parser.js:66-198 | The invariant holds when `parse`'s loop exits. |
| Properties.TokensPartitionText | src/modules/parser.js:95-197 | The emitted tokens spell the text. The only possible exception is a text ending in a backslash, after which `undefined` also follows. |
| Properties.RoundTrip | src/modules/parser.js:95-197 | For a text not ending in a backslash, the tokens spell the text exactly. |
| Properties.JoinPlainFormat | src/modules/parser.js:131-200 | With identity callbacks, the joined output is the concatenated tokens. |
| Properties.PlainHighlightIsIdentity | src/modules/parser.js:66-201 | With identity callbacks, `parse` returns its input, for texts not ending in a backslash. |
| Properties.EmptyText | src/modules/parser.js:66-201 | The empty text gives no token and the empty string, whatever the callbacks. |
| Properties.TokenInText | src/modules/parser.js:131-197 | Each token is the piece of the text that follows the tokens before it. |
| Properties.EveryTokenIsGood | src/modules/parser.js:105-194 | Every token has its type's shape and, unless it ends the text, ended for its type's reason. Operators and braces are one character. White space and words end at the first character outside their class. Strings and regexes end at their first unescaped terminator. Xml and block comments end at their first `-->` or `*/`. Line comments end before a newline. |
| Properties.WordStartsAfterNonWord | src/modules/parser.js:117-177 | A word token other than the first, lying inside the text, follows a character outside `[$\w]`, so words are maximal runs on both sides. |
| Properties.LastSignificantIsLast | src/modules/parser.js:162 | `lastTokenType` is the type of the last token of types 1-6, with only white space and comments after it. |
| Properties.RegexFollowsOperator | src/modules/parser.js:178-186 | A regex token comes after an operator or opening brace, with only white space and comments in between. |
| Properties.SlashIsRegexOrDivision | src/modules/parser.js:175-186 | A `/` that opens no comment starts a regex if and only if the last significant token was type 1 and the masked previous character is not `<`. Otherwise it is an operator. |
| Properties.FormatterOfEachType | src/modules/parser.js:134-157 | Which callback each token type goes to, keywords included. |
| Properties.KeywordIgnoresCase | src/modules/parser.js:156 | Two words equal up to ASCII case are both keywords or both not. |
| Properties.KeywordByCharacters | src/modules/parser.js:156 | A word is a keyword if and only if some keyword has its length and, at each position, the same character or the other case of the same ASCII letter. |
| Properties.KeywordTest | src/modules/parser.js:156 | The keyword test matches whole words ignoring ASCII case (`Function` matches `function`, `functional` and `fun` do not), and an empty list matches nothing. |
| Corrected.FixedRun | src/modules/parser.js:95-100 | The loop with the intended extra stop also ends with the variables positioned on the text. |
| Corrected.FixedTokensPartitionText | src/modules/parser.js:95-197 | With the intended stop, the tokens spell every text exactly. |
| Corrected.FixedRunAgrees | src/modules/parser.js:95-100 | The intended stop changes nothing on a text that does not end in a backslash. |
| Corrected.FixedTokensAgree | src/modules/parser.js:95-100 | The corrected tokens equal the tokens as written on every text not ending in a backslash. |
| Scenarios.Division | src/modules/parser.js:178-186 | `1 / 2`: the slash after a word is an operator. |
| Scenarios.RegexAfterOperator | src/modules/parser.js:119-186 | `x = /ab/`: the slash after `=` opens a regex that ends at the next slash. |
| Scenarios.EscapedQuote | src/modules/parser.js:99-121 | A string with an escaped quote inside is one token. |
| Scenarios.HashCommentEndsAtNewline | src/modules/parser.js:105-108 | A `#` comment ends before the newline. |
| Scenarios.BlockCommentRun | src/modules/parser.js:127-191 | `a /* c */ b`: the block comment runs to its closing sequence. |
| Scenarios.SlashAfterClosingTagOpener | src/modules/parser.js:183-186 | In `</a>` the slash after `<` is an operator. |
| Scenarios.RegexAfterEscapedAngle | src/modules/parser.js:95-186 | In `(\</a/` the `<` is escaped, so the masked previous character is `1` and the slash opens the regex `/a/`. |
| Scenarios.XmlCommentRun | src/modules/parser.js:125-190 | `<!--x-->` is one xml comment. |
| Scenarios.ShortBlockComment | src/modules/parser.js:127 | `/*/` is already a whole block comment. |
| Scenarios.StarSlashStar | src/modules/parser.js:127-191 | In `*/*`, the `/` is emitted alone as a block comment because the closing test reads the `*` before it. |
| Scenarios.TrailingBackslash | src/modules/parser.js:95-105 | `ls \` gives an extra token `undefined`. |
| Scenarios.CommentTrailingBackslash | src/modules/parser.js:95-105 | `#\` gives the extra token too: by the last loop condition the current token is the word `undefined`, so the final backslash is masked and the mask `1` keeps the loop going. |
| Scenarios.EscapedTrailingBackslash | src/modules/parser.js:95-105 | `a\\` ends in an escaped backslash and gets no extra token. |
| Scenarios.KeywordStringComment | src/modules/parser.js:105-194 | A word, a string and a line comment separated by spaces. |
| Scenarios.MarkedHighlight | src/modules/parser.js:131-200 | Each token of `if "s" // c` goes through its category's callback, white space is unchanged, and the results are joined. |
| Scenarios.UsageExample | src/modules/parser.js:34 | The tokens of the usage example's text. |
| Scenarios.UsageHighlight | src/modules/parser.js:34-56 | The usage example returns `FUNCTION test() { CONSOLE.log("test")}`. |

## Left out

- `src/modules/unilight.js` is not part of this model. It passes fixed callbacks to `parse`; its `./formatter` table is not available. The callbacks are arbitrary `string -> string` parameters here.
- Parse.Parse: requires every keyword to be made of `\w` characters. The source joins the keywords unescaped into a regular expression, and for such keywords that expression is whole-word equality ignoring ASCII case. Keywords with regular-expression syntax are not modelled.
- Case-insensitive matching folds ASCII letters only. The source's `toUpperCase` in the usage example is modelled for ASCII too.
- `\s` is an explicit set of code points. Strings are sequences of `char`; UTF-16 surrogate pairs are not modelled.
- JavaScript's general coercion of `undefined` and numbers to strings is not modelled. Only the cases the loop reaches are: `1` and `undefined` in `chr`/`prev1`, and the text `undefined` appended at the end.
- A missing `text` (defaulting to `''`), missing `options`, missing `keywords` and missing callbacks are not modelled. A missing `options` defaults to `{}`. A missing `keywords` or callback makes the source throw a TypeError only when a token needs it: a word for `keywords`, a token of that callback's category for a callback. Here all of them are always present.
- The output array is a sequence value that each push replaces. The model does not capture that the source pushes onto one array object in place.

## Findings

| source | as written | input that shows it | evidently intended | confidence | as-written member | corrected member |
|---|---|---|---|---|---|---|
| src/modules/parser.js:95-105 | The loop runs while the masked `prev1` is truthy. When the text ends in a backslash that is not escaped (a backslash escapes the next character only outside comments), the mask `1` keeps the loop going one turn past the end. That turn emits `undefined` as a word. A comment ending in a backslash is affected too, because by then the current token is the word `undefined`. | `ls \`, `#\` | The loop stops after the last character, so the tokens spell the text and identity callbacks return it unchanged | not executed | Scenarios.TrailingBackslash | Corrected.FixedTokensPartitionText |
