/** The single-pass scanner of `parse`: its token types, the start and
    finalize conditions, the callback chosen for each token, and one turn of
    the scan loop as a pure step on a record of the scan variables. */
module Scanner {
  import opened Chars

  /** Token types, numbered as in the source, which compares them numerically. */
  newtype TokenType = t: int | 0 <= t <= 10

  /** Anything else: white space, and any character that starts no other type. */
  const Neutral: TokenType := 0
  /** An operator or opening brace, one character long. */
  const Operator: TokenType := 1
  /** A closing brace, one character long; `/` after it is a division. */
  const ClosingBrace: TokenType := 2
  /** A (key)word. */
  const Word: TokenType := 3
  const Regex: TokenType := 4
  const DoubleQuoted: TokenType := 5
  const SingleQuoted: TokenType := 6
  /** `<!-- -->` */
  const XmlComment: TokenType := 7
  /** `/* */` */
  const BlockComment: TokenType := 8
  /** `//` up to the end of the line */
  const SlashComment: TokenType := 9
  /** `#` up to the end of the line */
  const HashComment: TokenType := 10

  datatype Token = Token(text: string, kind: TokenType)

  /** `lastTokenType < 2`; the comparison is false while it is still undefined. */
  predicate BelowTwo(lastTokenType: Option<TokenType>)
  {
    lastTokenType.Some? && lastTokenType.value < 2
  }

  /** The start condition of token type `t`: entry `t` of the array the
      start loop indexes. `next2`, `next3` are `text[pos+1]`, `text[pos+2]`. */
  predicate StartCondition(t: int, chr: Sym, next1: Sym, next2: Sym, next3: Sym,
                           prev1: Sym, lastTokenType: Option<TokenType>)
    requires 0 <= t <= 10
  {
    if t == 0 then true
    else if t == 1 then chr.Char? && IsOperatorChar(chr.c)
    else if t == 2 then chr.Char? && IsClosingBraceChar(chr.c)
    else if t == 3 then WordTest(chr)
    else if t == 4 then chr == Char('/') && BelowTwo(lastTokenType) && prev1 != Char('<')
    else if t == 5 then chr == Char('"')
    else if t == 6 then chr == Char('\'')
    else if t == 7 then chr == Char('<') && next1 == Char('!') && next2 == Char('-') && next3 == Char('-')
    else if t == 8 then chr == Char('/') && next1 == Char('*')
    else if t == 9 then chr == Char('/') && next1 == Char('/')
    else chr == Char('#')
  }

  /** The type of a new token, read as a priority list: comments first, then
      quotes, regex, word, closing brace, operator, and anything else. */
  function StartType(chr: Sym, next1: Sym, next2: Sym, next3: Sym,
                     prev1: Sym, lastTokenType: Option<TokenType>): TokenType
  {
    if chr == Char('#') then HashComment
    else if chr == Char('/') && next1 == Char('/') then SlashComment
    else if chr == Char('/') && next1 == Char('*') then BlockComment
    else if chr == Char('<') && next1 == Char('!') && next2 == Char('-') && next3 == Char('-') then XmlComment
    else if chr == Char('\'') then SingleQuoted
    else if chr == Char('"') then DoubleQuoted
    else if chr == Char('/') && BelowTwo(lastTokenType) && prev1 != Char('<') then Regex
    else if WordTest(chr) then Word
    else if chr.Char? && IsClosingBraceChar(chr.c) then ClosingBrace
    else if chr.Char? && IsOperatorChar(chr.c) then Operator
    else Neutral
  }

  /** The new token's type is the highest-numbered type whose start condition
      holds, which is what the source's decrementing loop finds. */
  lemma StartTypeIsHighestMatch(t: int, chr: Sym, next1: Sym, next2: Sym, next3: Sym,
                                prev1: Sym, lastTokenType: Option<TokenType>)
    requires 0 <= t <= 10
    ensures StartType(chr, next1, next2, next3, prev1, lastTokenType) as int == t <==>
            StartCondition(t, chr, next1, next2, next3, prev1, lastTokenType) &&
            forall u :: t < u <= 10 ==> !StartCondition(u, chr, next1, next2, next3, prev1, lastTokenType)
  {
    var r := StartType(chr, next1, next2, next3, prev1, lastTokenType) as int;
    assert StartCondition(r, chr, next1, next2, next3, prev1, lastTokenType);
    forall u | r < u <= 10
      ensures !StartCondition(u, chr, next1, next2, next3, prev1, lastTokenType)
    {
      if StartCondition(u, chr, next1, next2, next3, prev1, lastTokenType) {
        NoHigherMatch(u, chr, next1, next2, next3, prev1, lastTokenType);
      }
    }
  }

  /** A start condition that holds is never above the type chosen. */
  lemma NoHigherMatch(u: int, chr: Sym, next1: Sym, next2: Sym, next3: Sym,
                      prev1: Sym, lastTokenType: Option<TokenType>)
    requires 0 <= u <= 10
    requires StartCondition(u, chr, next1, next2, next3, prev1, lastTokenType)
    ensures u <= StartType(chr, next1, next2, next3, prev1, lastTokenType) as int
  {
    if u == 0 {
    } else if u == 1 {
      assert chr.Char? && IsOperatorChar(chr.c);
    } else if u == 2 {
      assert chr.Char? && IsClosingBraceChar(chr.c);
    } else if u == 3 {
      assert WordTest(chr);
    } else if u <= 6 {
    } else {
    }
  }

  /** Entry `t` of the array of finalize conditions. Types 9 and 10 index
      past its end, which reads as false. `before` is `text[pos-4]`. */
  predicate FinalizeCondition(t: TokenType, chr: Sym, prev1: Sym, prev2: Sym, before: Sym, multichar: bool)
  {
    if t == Neutral then NonSpaceTest(chr)
    else if t == Operator || t == ClosingBrace then true
    else if t == Word then !WordTest(chr)
    else if t == Regex then (prev1 == Char('/') || prev1 == Char('\n')) && multichar
    else if t == DoubleQuoted then prev1 == Char('"') && multichar
    else if t == SingleQuoted then prev1 == Char('\'') && multichar
    else if t == XmlComment then before == Char('-') && prev2 == Char('-') && prev1 == Char('>')
    else if t == BlockComment then prev2 == Char('*') && prev1 == Char('/')
    else false
  }

  /** The current token closes at the end of the text, at a newline for
      one-line comments, or by its type's finalize condition. */
  predicate ShouldClose(t: TokenType, chr: Sym, prev1: Sym, prev2: Sym, before: Sym, multichar: bool)
  {
    chr == Undefined || (t > 8 && chr == Char('\n')) ||
    FinalizeCondition(t, chr, prev1, prev2, before, multichar)
  }

  // ---------------------------------------------------------------------
  // Formatting callbacks

  /** The caller's options: keyword list and the four formatters. */
  datatype Options = Options(
    keywords: seq<string>,
    formatKeyword: string -> string,
    formatPonctuation: string -> string,
    formatString: string -> string,
    formatComment: string -> string)

  /** Keywords the keyword test handles as literal text: made of `\w`
      characters only. */
  predicate PlainKeywords(keywords: seq<string>)
  {
    forall k :: k in keywords ==> forall i :: 0 <= i < |k| ==> IsIdentChar(k[i])
  }

  /** The test `^(k1|k2|...)$` with the case-insensitive flag: the whole
      word equals one of the keywords, ignoring case. */
  predicate IsKeyword(word: string, keywords: seq<string>)
  {
    exists k :: k in keywords && EqualsIgnoringCase(word, k)
  }

  /** Index of the formatter a token goes to: 0 none, 1 keyword,
      2 punctuation, 3 string or regex, 4 comment. */
  function Style(tok: Token, keywords: seq<string>): (r: nat)
    ensures r <= 4
  {
    if tok.kind == Neutral then 0
    else if tok.kind < 3 then 2
    else if tok.kind > 6 then 4
    else if tok.kind > 3 then 3
    else if IsKeyword(tok.text, keywords) then 1 else 0
  }

  function Format(tok: Token, options: Options): string
  {
    match Style(tok, options.keywords)
    case 0 => tok.text
    case 1 => options.formatKeyword(tok.text)
    case 2 => options.formatPonctuation(tok.text)
    case 3 => options.formatString(tok.text)
    case _ => options.formatComment(tok.text)
  }

  /** Each token formatted, in order. */
  function FormatAll(tokens: seq<Token>, options: Options): seq<string>
  {
    if tokens == [] then []
    else FormatAll(tokens[..|tokens| - 1], options) + [Format(tokens[|tokens| - 1], options)]
  }

  /** Every token goes through exactly one formatter, once, in order. */
  lemma {:induction false} FormatAllAt(tokens: seq<Token>, options: Options, i: nat)
    requires i < |tokens|
    ensures |FormatAll(tokens, options)| == |tokens|
    ensures FormatAll(tokens, options)[i] == Format(tokens[i], options)
  {
    var n := |tokens| - 1;
    if i < n {
      FormatAllAt(tokens[..n], options, i);
    } else if n > 0 {
      FormatAllAt(tokens[..n], options, 0);
    } else {
      assert FormatAll(tokens[..n], options) == [];
    }
  }

  lemma FormatAllAppend(tokens: seq<Token>, t: Token, options: Options)
    ensures FormatAll(tokens + [t], options) == FormatAll(tokens, options) + [Format(t, options)]
  {
    assert (tokens + [t])[..|tokens|] == tokens;
  }

  /** Formatting two lists one after the other is formatting each. */
  lemma {:induction false} FormatAllConcat(x: seq<Token>, y: seq<Token>, options: Options)
    ensures FormatAll(x + y, options) == FormatAll(x, options) + FormatAll(y, options)
    decreases |y|
  {
    if y != [] {
      var n := |y| - 1;
      FormatAllConcat(x, y[..n], options);
      assert x + y == (x + y[..n]) + [y[n]];
      FormatAllAppend(x + y[..n], y[n], options);
      FormatAllAppend(y[..n], y[n], options);
      assert y == y[..n] + [y[n]];
    } else {
      assert x + y == x;
    }
  }

  /** `array.join('')` */
  function Join(parts: seq<string>): string
  {
    if parts == [] then "" else Join(parts[..|parts| - 1]) + parts[|parts| - 1]
  }

  lemma JoinAppend(parts: seq<string>, p: string)
    ensures Join(parts + [p]) == Join(parts) + p
  {
    assert (parts + [p])[..|parts|] == parts;
  }

  /** Joining two lists one after the other is joining each and
      concatenating. */
  lemma {:induction false} JoinConcat(x: seq<string>, y: seq<string>)
    ensures Join(x + y) == Join(x) + Join(y)
    decreases |y|
  {
    if y != [] {
      var n := |y| - 1;
      JoinConcat(x, y[..n]);
      assert x + y == (x + y[..n]) + [y[n]];
      JoinAppend(x + y[..n], y[n]);
      JoinAppend(y[..n], y[n]);
      assert y == y[..n] + [y[n]];
    } else {
      assert x + y == x;
    }
  }

  /** The texts of the tokens, one after the other. */
  function Concat(tokens: seq<Token>): string
  {
    if tokens == [] then "" else Concat(tokens[..|tokens| - 1]) + tokens[|tokens| - 1].text
  }

  // ---------------------------------------------------------------------
  // The scan loop

  /** The scan variables at the loop condition, and the tokens emitted so far. */
  datatype Scanner = Scanner(
    pos: int,
    next1: Sym,
    chr: Sym,
    prev1: Sym,
    prev2: Sym,
    token: string,
    tokenType: TokenType,
    lastTokenType: Option<TokenType>,
    tokens: seq<Token>)

  function Init(text: string): Scanner
  {
    Scanner(0, At(text, 0), Marker, Undefined, Undefined, "", Neutral, None, [])
  }

  /** What the loop condition stores into `prev1`: the mask when the
      character two back was a backslash outside a comment, else `chr`. */
  function MaskedPrev1(s: Scanner): Sym
  {
    if s.tokenType < 7 && s.prev1 == Char('\\') then Marker else s.chr
  }

  /** The loop condition: the new `prev1` is truthy. */
  predicate Running(s: Scanner)
  {
    MaskedPrev1(s) != Undefined
  }

  /** How the scan variables sit on the text at every loop condition. */
  predicate Sane(text: string, s: Scanner)
  {
    0 <= s.pos <= |text| + 2 &&
    s.next1 == At(text, s.pos) &&
    s.chr == (if s.pos == 0 then Marker else At(text, s.pos - 1)) &&
    (s.prev1 == Marker || s.prev1 == At(text, s.pos - 2)) &&
    (s.pos == |text| + 2 ==> s.prev1 == Marker)
  }

  /** Whether the current token ends before the character the next turn
      reads: the finalize test on the variables as that turn sets them
      (`chr` is `next1`, `prev1` the masked `chr`, `prev2` the old `prev1`,
      and `text[pos-4]` is read at the new position). */
  predicate Closes(text: string, s: Scanner)
  {
    ShouldClose(s.tokenType, s.next1, MaskedPrev1(s), s.prev1, At(text, s.pos - 3), |s.token| > 1)
  }

  /** One turn of the loop: the condition's assignments, reading the next
      character, closing and emitting the token if it ends here (and picking
      the new token's type), then appending the character. */
  function Advance(text: string, s: Scanner): (r: Scanner)
    requires Sane(text, s) && Running(s)
    ensures Sane(text, r) && r.pos == s.pos + 1
  {
    var pos := s.pos + 1;
    var chr := s.next1;
    var next1 := At(text, pos);
    var prev1 := MaskedPrev1(s);
    var closes := Closes(text, s);
    var tokens := if closes && s.token != "" then s.tokens + [Token(s.token, s.tokenType)] else s.tokens;
    var last := if closes && s.tokenType != Neutral && s.tokenType < 7 then Some(s.tokenType) else s.lastTokenType;
    var tokenType := if closes then StartType(chr, next1, At(text, pos + 1), At(text, pos + 2), prev1, last) else s.tokenType;
    Scanner(pos, next1, chr, prev1, s.prev1, (if closes then "" else s.token) + SymText(chr), tokenType, last, tokens)
  }

  /** The loop run to its end. It stops one or two turns past the last
      character. */
  function Run(text: string, s: Scanner): (r: Scanner)
    requires Sane(text, s)
    ensures Sane(text, r) && !Running(r)
    ensures r.pos == |text| + 1 || r.pos == |text| + 2
    decreases |text| + 2 - s.pos
  {
    if Running(s) then Run(text, Advance(text, s)) else s
  }

  /** A turn of the loop leaves the outcome of the run unchanged. */
  lemma RunStep(text: string, s: Scanner)
    requires Sane(text, s) && Running(s)
    ensures Run(text, Advance(text, s)) == Run(text, s)
  {
  }

  /** The tokens `parse` emits for `text`, in order. */
  function Tokens(text: string): seq<Token>
  {
    Run(text, Init(text)).tokens
  }

  /** What `parse(text, options)` returns. */
  function Highlight(text: string, options: Options): string
  {
    Join(FormatAll(Tokens(text), options))
  }
}
