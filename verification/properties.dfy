/** What `parse` promises about its tokens and its output, for every text. */
module Properties {
  import opened Chars
  import opened Scanner
  import opened ScanInvariants

  // ---------------------------------------------------------------------
  // The tokens cover the text

  /** The tokens, one after the other, spell the text; the only exception is
      a text ending in a backslash that the scan does not mask, after which
      the token `undefined` is emitted as well. */
  lemma TokensPartitionText(text: string)
    ensures var c := Concat(Tokens(text));
            c == text || (|text| > 0 && text[|text| - 1] == '\\' && c == text + "undefined")
  {
    FinalInv(text);
  }

  /** For a text that does not end in a backslash, highlighting with
      formatters that change nothing gives back the text. */
  lemma RoundTrip(text: string)
    requires |text| == 0 || text[|text| - 1] != '\\'
    ensures Concat(Tokens(text)) == text
  {
    FinalInv(text);
  }

  /** The callbacks of `options` all return their argument. */
  ghost predicate PlainFormatters(options: Options)
  {
    (forall w :: options.formatKeyword(w) == w) &&
    (forall w :: options.formatPonctuation(w) == w) &&
    (forall w :: options.formatString(w) == w) &&
    (forall w :: options.formatComment(w) == w)
  }

  lemma {:induction false} JoinPlainFormat(tokens: seq<Token>, options: Options)
    requires PlainFormatters(options)
    ensures Join(FormatAll(tokens, options)) == Concat(tokens)
  {
    if tokens != [] {
      var n := |tokens| - 1;
      JoinPlainFormat(tokens[..n], options);
      var f := FormatAll(tokens, options);
      assert f == FormatAll(tokens[..n], options) + [Format(tokens[n], options)];
      assert f[..|f| - 1] == FormatAll(tokens[..n], options);
    }
  }

  /** Highlighting with formatters that change nothing gives back the text. */
  lemma PlainHighlightIsIdentity(text: string, options: Options)
    requires PlainFormatters(options)
    requires |text| == 0 || text[|text| - 1] != '\\'
    ensures Highlight(text, options) == text
  {
    JoinPlainFormat(Tokens(text), options);
    RoundTrip(text);
  }

  /** The empty text gives no token and the empty output, whatever the
      formatters. */
  lemma EmptyText(options: Options)
    ensures Tokens("") == [] && Highlight("", options) == ""
  {
    RunStep("", Init(""));
    assert !Running(Advance("", Init("")));
  }

  // ---------------------------------------------------------------------
  // Where each token sits in the text

  lemma {:induction false} ConcatPrefix(tokens: seq<Token>, j: nat)
    requires j <= |tokens|
    ensures Concat(tokens[..j]) <= Concat(tokens)
    decreases |tokens|
  {
    if j < |tokens| {
      var n := |tokens| - 1;
      assert tokens[..n][..j] == tokens[..j];
      ConcatPrefix(tokens[..n], j);
    } else {
      assert tokens[..j] == tokens;
    }
  }

  lemma ConcatStep(tokens: seq<Token>, i: nat)
    requires i < |tokens|
    ensures Concat(tokens[..i + 1]) == Concat(tokens[..i]) + tokens[i].text
  {
    assert tokens[..i + 1][..i] == tokens[..i];
  }

  /** Token `i` is the piece of the text after the tokens before it. */
  lemma TokenInText(text: string, i: nat)
    requires i < |Tokens(text)|
    ensures var ts := Tokens(text);
            var start := |Concat(ts[..i])|;
            start + |ts[i].text| <= |text| ==> text[start..start + |ts[i].text|] == ts[i].text
  {
    var ts := Tokens(text);
    var start := |Concat(ts[..i])|;
    var e := start + |ts[i].text|;
    ConcatStep(ts, i);
    ConcatPrefix(ts, i + 1);
    TokensPartitionText(text);
    var c := Concat(ts);
    if e <= |text| {
      assert text <= c;
      assert Concat(ts[..i + 1]) == c[..e];
      assert c[start..e] == ts[i].text;
      assert text[start..e] == c[start..e];
    }
  }

  lemma {:induction false} GoodTokensAt(text: string, tokens: seq<Token>, i: nat)
    requires GoodTokens(text, tokens) && i < |tokens|
    ensures GoodToken(text, |Concat(tokens[..i])|, tokens[i])
    ensures tokens[i].kind == Regex ==> LastSignificant(tokens[..i]) == Some(Operator)
  {
    var n := |tokens| - 1;
    if i < n {
      GoodTokensAt(text, tokens[..n], i);
      assert tokens[..n][..i] == tokens[..i];
    }
  }

  /** Every token has the shape of its type and, when the text goes on
      after it, ended for its type's reason: white space at the first
      non-white-space character, a word at the first character outside
      `[$\w]`, a string or regex just after its first unescaped
      terminator, a comment after its closing sequence or at a newline,
      operators and braces after one character. */
  lemma EveryTokenIsGood(text: string, i: nat)
    requires i < |Tokens(text)|
    ensures var ts := Tokens(text);
            GoodToken(text, |Concat(ts[..i])|, ts[i])
  {
    FinalInv(text);
    GoodTokensAt(text, Tokens(text), i);
  }

  /** A word token starts at the first character of a run of `[$\w]`:
      the character before it, the last of the previous token, is outside
      the class (the token `undefined` after a trailing backslash aside). */
  lemma WordStartsAfterNonWord(text: string, i: nat)
    requires 0 < i < |Tokens(text)| && Tokens(text)[i].kind == Word
    requires |Concat(Tokens(text)[..i + 1])| <= |text|
    ensures var e := |Concat(Tokens(text)[..i])|;
            0 < e < |text| && !IsWordChar(text[e - 1])
  {
    var ts := Tokens(text);
    EveryTokenIsGood(text, i - 1);
    EveryTokenIsGood(text, i);
    TokenInText(text, i - 1);
    TokenInText(text, i);
    ConcatStep(ts, i - 1);
    ConcatStep(ts, i);
    AdjacentWord(text, ts[i - 1], ts[i], |Concat(ts[..i - 1])|, |Concat(ts[..i])|);
  }

  /** Two adjacent good tokens inside the text, the second a word. */
  lemma AdjacentWord(text: string, prev: Token, word: Token, s0: int, e: int)
    requires GoodToken(text, s0, prev) && GoodToken(text, e, word) && word.kind == Word
    requires e == s0 + |prev.text| && e + |word.text| <= |text|
    requires text[s0..e] == prev.text && text[e..e + |word.text|] == word.text
    ensures 0 < e < |text| && !IsWordChar(text[e - 1])
  {
    assert text[e] == word.text[0];
    assert text[e - 1] == prev.text[|prev.text| - 1];
    EndsOutsideWord(prev, text, e);
  }

  /** A token the text goes on after, where the next character is in
      `[$\w]`, does not end with a character of that class. */
  lemma EndsOutsideWord(tok: Token, text: string, e: int)
    requires Shape(tok) && |tok.text| <= e < |text| && Terminated(tok, text, e)
    requires IsWordChar(text[e]) && text[e - 1] == tok.text[|tok.text| - 1]
    ensures !IsWordChar(text[e - 1])
  {
    var t := tok.text;
    if tok.kind == Neutral && |t| > 1 {
      assert IsSpace(t[|t| - 1]);
    } else if IsQuoted(tok.kind) {
      assert EndsAt(tok.kind, t, |t| - 1);
    }
  }

  // ---------------------------------------------------------------------
  // Regex or division

  lemma {:induction false} LastSignificantIsLast(tokens: seq<Token>, v: TokenType)
    requires LastSignificant(tokens) == Some(v)
    ensures exists j :: 0 <= j < |tokens| && tokens[j].kind == v &&
                        forall m :: j < m < |tokens| ==> tokens[m].kind == Neutral || tokens[m].kind >= XmlComment
  {
    var n := |tokens| - 1;
    if Operator <= tokens[n].kind <= SingleQuoted {
      assert tokens[n].kind == v;
    } else {
      LastSignificantIsLast(tokens[..n], v);
      var j :| 0 <= j < n && tokens[..n][j].kind == v &&
               forall m :: j < m < n ==> tokens[..n][m].kind == Neutral || tokens[..n][m].kind >= XmlComment;
      assert tokens[j].kind == v;
    }
  }

  /** A regex token comes after an operator or opening brace, with nothing
      but white space and comments in between. */
  lemma RegexFollowsOperator(text: string, i: nat)
    requires i < |Tokens(text)| && Tokens(text)[i].kind == Regex
    ensures var ts := Tokens(text);
            exists j :: 0 <= j < i && ts[j].kind == Operator &&
                        forall m :: j < m < i ==> ts[m].kind == Neutral || ts[m].kind >= XmlComment
  {
    var ts := Tokens(text);
    FinalInv(text);
    GoodTokensAt(text, ts, i);
    LastSignificantIsLast(ts[..i], Operator);
    var j :| 0 <= j < i && ts[..i][j].kind == Operator &&
             forall m :: j < m < i ==> ts[..i][m].kind == Neutral || ts[..i][m].kind >= XmlComment;
    assert ts[j].kind == Operator;
  }

  /** A slash that does not open a comment starts a regex exactly when the
      last token other than white space and comments was an operator or
      opening brace and the masked previous character `prev1` is not `<`
      (as in `</a>`; an escaped `<` is masked and does not count); otherwise
      it is a division operator. */
  lemma SlashIsRegexOrDivision(next1: Sym, next2: Sym, next3: Sym, prev1: Sym, last: Option<TokenType>)
    requires next1 != Char('/') && next1 != Char('*')
    requires last.Some? ==> Operator <= last.value <= SingleQuoted
    ensures var k := StartType(Char('/'), next1, next2, next3, prev1, last);
            (k == Regex <==> last == Some(Operator) && prev1 != Char('<')) &&
            (k != Regex ==> k == Operator)
  {
  }

  // ---------------------------------------------------------------------
  // Formatting

  /** Which callback formats a token: none for white space and anything
      else, punctuation for operators and braces, keyword for words in the
      keyword list (none for other words), string for strings and regexes,
      comment for the four kinds of comments. */
  lemma FormatterOfEachType(tok: Token, options: Options)
    ensures tok.kind == Neutral ==> Format(tok, options) == tok.text
    ensures tok.kind == Operator || tok.kind == ClosingBrace ==>
              Format(tok, options) == options.formatPonctuation(tok.text)
    ensures tok.kind == Word && IsKeyword(tok.text, options.keywords) ==>
              Format(tok, options) == options.formatKeyword(tok.text)
    ensures tok.kind == Word && !IsKeyword(tok.text, options.keywords) ==>
              Format(tok, options) == tok.text
    ensures IsQuoted(tok.kind) ==> Format(tok, options) == options.formatString(tok.text)
    ensures tok.kind >= XmlComment ==> Format(tok, options) == options.formatComment(tok.text)
  {
  }

  /** Changing the case of letters in a word does not change whether it
      is a keyword. */
  lemma KeywordIgnoresCase(w: string, w': string, keywords: seq<string>)
    requires EqualsIgnoringCase(w, w')
    ensures IsKeyword(w, keywords) <==> IsKeyword(w', keywords)
  {
  }

  /** A word is a keyword exactly when some keyword has its length and,
      position by position, the same character or the other case of the
      same ASCII letter. */
  lemma KeywordByCharacters(w: string, keywords: seq<string>)
    ensures IsKeyword(w, keywords) <==>
            exists k :: k in keywords && |k| == |w| &&
              forall i :: 0 <= i < |w| ==>
                w[i] == k[i] || (IsAsciiLetter(w[i]) && IsAsciiLetter(k[i]) &&
                                 (w[i] as int - k[i] as int == 32 || k[i] as int - w[i] as int == 32))
  {
  }

  /** The keyword test matches the whole word, ignoring ASCII case. */
  lemma KeywordTest()
    ensures IsKeyword("Function", ["var", "function"])
    ensures !IsKeyword("functional", ["var", "function"])
    ensures !IsKeyword("fun", ["var", "function"])
    ensures forall w :: !IsKeyword(w, [])
  {
    assert EqualsIgnoringCase("Function", "function");
    assert FoldCase("fun"[0]) != FoldCase("var"[0]);
  }
}
