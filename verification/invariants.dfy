/** What holds of the scan variables at every loop condition: the emitted
    tokens and the current token partition the text read so far, each token
    has the shape its type allows, and each token that ended before the end
    of the text ended for its type's reason. */
module ScanInvariants {
  import opened Chars
  import opened Scanner

  // ---------------------------------------------------------------------
  // Token shapes

  /** A character that starts no token type but type 0. */
  predicate NeutralStart(c: char)
  {
    !IsOperatorChar(c) && !IsClosingBraceChar(c) && !IsWordChar(c) &&
    c != '"' && c != '\'' && c != '#'
  }

  /** White space starts a type-0 token. */
  lemma SpaceIsNeutralStart(c: char)
    requires IsSpace(c)
    ensures NeutralStart(c)
  {
  }

  /** Regexes and the two kinds of strings. */
  predicate IsQuoted(kind: TokenType)
  {
    Regex <= kind <= SingleQuoted
  }

  /** The first character of a regex or string. */
  function Opener(kind: TokenType): char
    requires IsQuoted(kind)
  {
    if kind == Regex then '/' else if kind == DoubleQuoted then '"' else '\''
  }

  /** A character after which a regex or string ends. */
  predicate IsTerminator(kind: TokenType, c: char)
  {
    (kind == Regex && (c == '/' || c == '\n')) ||
    (kind == DoubleQuoted && c == '"') ||
    (kind == SingleQuoted && c == '\'')
  }

  /** Character `j` of the regex or string `t` is an unescaped terminator
      other than its opening character. */
  predicate EndsAt(kind: TokenType, t: string, j: int)
    requires 0 <= j < |t|
  {
    1 <= j && IsTerminator(kind, t[j]) && !EscapedAfter(t[..j])
  }

  /** No character of `t` but possibly its last ends it. */
  predicate NoEarlyEnd(kind: TokenType, t: string)
  {
    forall j :: 0 <= j < |t| - 1 ==> !EndsAt(kind, t, j)
  }

  /** No `-->` in `t` but possibly its last three characters: an xml
      comment ends at the first `-->` it reads. */
  predicate NoEarlyXmlEnd(t: string)
  {
    forall i :: 0 <= i && i + 3 < |t| ==> !(t[i] == '-' && t[i + 1] == '-' && t[i + 2] == '>')
  }

  // No star-slash in `t` but possibly its last two characters: a block
  // comment ends at the first star-slash it reads.
  predicate NoEarlyBlockEnd(t: string)
  {
    forall i :: 0 <= i && i + 2 < |t| ==> !(t[i] == '*' && t[i + 1] == '/')
  }

  /** What the text of an emitted token looks like, by its type. */
  predicate Shape(tok: Token)
  {
    var t := tok.text;
    var k := tok.kind;
    |t| >= 1 &&
    if k == Neutral then NeutralStart(t[0]) && forall j :: 1 <= j < |t| ==> IsSpace(t[j])
    else if k == Operator then |t| == 1 && IsOperatorChar(t[0])
    else if k == ClosingBrace then |t| == 1 && IsClosingBraceChar(t[0])
    else if k == Word then forall j :: 0 <= j < |t| ==> IsWordChar(t[j])
    else if IsQuoted(k) then t[0] == Opener(k) && NoEarlyEnd(k, t)
    else if k == XmlComment then
      |t| >= 4 && t[0] == '<' && t[1] == '!' && t[2] == '-' && t[3] == '-' && NoEarlyXmlEnd(t)
    else if k == BlockComment then t[0] == '/' && (|t| >= 2 ==> t[1] == '*') && NoEarlyBlockEnd(t)
    else if k == SlashComment then |t| >= 2 && t[0] == '/' && t[1] == '/' && '\n' !in t
    else t[0] == '#' && '\n' !in t
  }

  /** Why a token that ends at offset `e`, before the end of the text, ended
      there. */
  predicate Terminated(tok: Token, text: string, e: int)
    requires |tok.text| <= e < |text|
  {
    var t := tok.text;
    var k := tok.kind;
    if k == Neutral then !IsSpace(text[e])
    else if k == Word then !IsWordChar(text[e])
    else if IsQuoted(k) then |t| >= 2 && EndsAt(k, t, |t| - 1)
    else if k == XmlComment then |t| >= 5 && text[e - 3] == '-' && text[e - 2] == '-' && text[e - 1] == '>'
    else if k == BlockComment then e >= 2 && text[e - 2] == '*' && text[e - 1] == '/'
    else if k == SlashComment || k == HashComment then text[e] == '\n'
    else true
  }

  /** An emitted token starting at offset `start`. */
  predicate GoodToken(text: string, start: int, tok: Token)
  {
    0 <= start && Shape(tok) &&
    (start + |tok.text| < |text| ==> Terminated(tok, text, start + |tok.text|))
  }

  /** The most recent type among 1..6 in `tokens`: what `lastTokenType` holds. */
  function LastSignificant(tokens: seq<Token>): (r: Option<TokenType>)
    ensures r.Some? ==> Operator <= r.value <= SingleQuoted
  {
    if tokens == [] then None
    else if Operator <= tokens[|tokens| - 1].kind <= SingleQuoted then Some(tokens[|tokens| - 1].kind)
    else LastSignificant(tokens[..|tokens| - 1])
  }

  /** Every token is good at its offset, and a regex comes after an operator. */
  predicate GoodTokens(text: string, tokens: seq<Token>)
  {
    tokens == [] ||
    var n := |tokens| - 1;
    GoodTokens(text, tokens[..n]) &&
    GoodToken(text, |Concat(tokens[..n])|, tokens[n]) &&
    (tokens[n].kind == Regex ==> LastSignificant(tokens[..n]) == Some(Operator))
  }

  // ---------------------------------------------------------------------
  // The loop invariant

  /** The token being built, while the scan is inside the text. */
  predicate Current(text: string, s: Scanner)
  {
    var t := s.token;
    var k := s.tokenType;
    var st := s.pos - |t|;
    1 <= |t| && 0 <= st && s.pos <= |text| && t == text[st..s.pos] &&
    if k == Neutral then NeutralStart(t[0]) && forall j :: 1 <= j < |t| ==> IsSpace(t[j])
    else if k == Operator then |t| == 1 && IsOperatorChar(t[0])
    else if k == ClosingBrace then |t| == 1 && IsClosingBraceChar(t[0])
    else if k == Word then forall j :: 0 <= j < |t| ==> IsWordChar(t[j])
    else if IsQuoted(k) then
      t[0] == Opener(k) && NoEarlyEnd(k, t) &&
      (|t| >= 2 ==> (s.prev1 == Char('\\') <==> t[|t| - 2] == '\\' && !EscapedAfter(t[..|t| - 2]))) &&
      (k == Regex ==> LastSignificant(s.tokens) == Some(Operator))
    else if k == XmlComment then
      st + 4 <= |text| && text[st] == '<' && text[st + 1] == '!' && text[st + 2] == '-' && text[st + 3] == '-' &&
      NoEarlyXmlEnd(t) && (|t| >= 2 ==> s.prev1 != Marker)
    else if k == BlockComment then
      st + 2 <= |text| && text[st] == '/' && text[st + 1] == '*' &&
      NoEarlyBlockEnd(t) && (|t| >= 2 ==> s.prev1 != Marker)
    else if k == SlashComment then st + 2 <= |text| && text[st] == '/' && text[st + 1] == '/' && '\n' !in t
    else t[0] == '#' && '\n' !in t
  }

  predicate Inv(text: string, s: Scanner)
  {
    Sane(text, s) &&
    GoodTokens(text, s.tokens) &&
    s.lastTokenType == LastSignificant(s.tokens) &&
    (s.pos == 0 ==> s == Init(text)) &&
    (1 <= s.pos <= |text| ==> Concat(s.tokens) + s.token == text[..s.pos] && Current(text, s)) &&
    (s.pos == |text| + 1 ==> Concat(s.tokens) == text && s.token == "undefined" && s.tokenType == Word) &&
    (s.pos == |text| + 2 ==> Concat(s.tokens) == text + "undefined" && |text| > 0 && text[|text| - 1] == '\\')
  }

  // ---------------------------------------------------------------------
  // Appending a token

  lemma ConcatAppend(tokens: seq<Token>, t: Token)
    ensures Concat(tokens + [t]) == Concat(tokens) + t.text
  {
    assert (tokens + [t])[..|tokens|] == tokens;
  }

  lemma LastSignificantAppend(tokens: seq<Token>, t: Token)
    ensures LastSignificant(tokens + [t]) ==
            if Operator <= t.kind <= SingleQuoted then Some(t.kind) else LastSignificant(tokens)
  {
    assert (tokens + [t])[..|tokens|] == tokens;
  }

  lemma GoodTokensAppend(text: string, tokens: seq<Token>, t: Token)
    requires GoodTokens(text, tokens) && GoodToken(text, |Concat(tokens)|, t)
    requires t.kind == Regex ==> LastSignificant(tokens) == Some(Operator)
    ensures GoodTokens(text, tokens + [t])
  {
    assert (tokens + [t])[..|tokens|] == tokens;
  }

  /** Emitting a good token keeps the emitted tokens good, and updates
      `lastTokenType` as the source does. */
  lemma EmitKeepsTokens(text: string, tokens: seq<Token>, last: Option<TokenType>, t: Token)
    requires GoodTokens(text, tokens) && last == LastSignificant(tokens)
    requires GoodToken(text, |Concat(tokens)|, t)
    requires t.kind == Regex ==> last == Some(Operator)
    ensures GoodTokens(text, tokens + [t])
    ensures LastSignificant(tokens + [t]) == if t.kind != Neutral && t.kind < 7 then Some(t.kind) else last
    ensures Concat(tokens + [t]) == Concat(tokens) + t.text
  {
    GoodTokensAppend(text, tokens, t);
    LastSignificantAppend(tokens, t);
    ConcatAppend(tokens, t);
  }

  // ---------------------------------------------------------------------
  // Starting a token

  /** The one-character token just started at offset `a.pos - 1` has the
      shape of the type the start loop chose for it. */
  lemma NewTokenIsCurrent(text: string, a: Scanner, prev: Sym)
    requires 0 <= a.pos - 1 < |text|
    requires a.token == [text[a.pos - 1]]
    requires a.lastTokenType == LastSignificant(a.tokens)
    requires a.tokenType == StartType(Char(text[a.pos - 1]), At(text, a.pos), At(text, a.pos + 1),
                                      At(text, a.pos + 2), prev, a.lastTokenType)
    ensures Current(text, a)
  {
    var p := a.pos - 1;
    assert a.token == text[p..a.pos];
    var k := a.tokenType;
  }

  // ---------------------------------------------------------------------
  // Closing a token

  /** The character just read ends a regex or string exactly when the
      previous one is an unescaped terminator (and the token is longer than
      its opening character). */
  lemma QuotedCloses(text: string, s: Scanner)
    requires Sane(text, s) && Current(text, s) && IsQuoted(s.tokenType)
    ensures var t := s.token;
            |t| >= 2 ==> (MaskedPrev1(s) == Char(t[|t| - 1]) <==> !EscapedAfter(t[..|t| - 1]))
    ensures var t := s.token;
            |t| == 1 ==> MaskedPrev1(s) != Char('\\')
  {
    var t := s.token;
    var p := s.pos;
    assert s.chr == Char(t[|t| - 1]);
    if |t| >= 2 {
      assert t[..|t| - 1][..|t| - 2] == t[..|t| - 2];
    }
  }

  /** Why a token that closes before the end of the text closes. */
  lemma ClosedTokenIsTerminated(text: string, s: Scanner)
    requires Sane(text, s) && Current(text, s) && s.pos < |text| && Closes(text, s)
    ensures |s.token| <= s.pos
    ensures Terminated(Token(s.token, s.tokenType), text, s.pos)
  {
    var k := s.tokenType;
    if IsQuoted(k) {
      ClosedQuotedIsTerminated(text, s);
    } else if k == XmlComment {
      ClosedXmlIsTerminated(text, s);
    } else if k == BlockComment {
      ClosedBlockIsTerminated(text, s);
    } else {
      ClosedOtherIsTerminated(text, s);
    }
  }

  lemma ClosedQuotedIsTerminated(text: string, s: Scanner)
    requires Sane(text, s) && Current(text, s) && s.pos < |text| && Closes(text, s)
    requires IsQuoted(s.tokenType)
    ensures |s.token| <= s.pos
    ensures Terminated(Token(s.token, s.tokenType), text, s.pos)
  {
    assert s.next1 == Char(text[s.pos]);
    QuotedCloses(text, s);
  }

  lemma ClosedXmlIsTerminated(text: string, s: Scanner)
    requires Sane(text, s) && Current(text, s) && s.pos < |text| && Closes(text, s)
    requires s.tokenType == XmlComment
    ensures |s.token| <= s.pos
    ensures Terminated(Token(s.token, s.tokenType), text, s.pos)
  {
    var p := s.pos;
    assert text[p - 1] == '>' && text[p - 2] == '-' && text[p - 3] == '-';
  }

  lemma ClosedBlockIsTerminated(text: string, s: Scanner)
    requires Sane(text, s) && Current(text, s) && s.pos < |text| && Closes(text, s)
    requires s.tokenType == BlockComment
    ensures |s.token| <= s.pos
    ensures Terminated(Token(s.token, s.tokenType), text, s.pos)
  {
    var p := s.pos;
    assert text[p - 1] == '/' && text[p - 2] == '*';
  }

  lemma ClosedOtherIsTerminated(text: string, s: Scanner)
    requires Sane(text, s) && Current(text, s) && s.pos < |text| && Closes(text, s)
    requires s.tokenType < Regex || s.tokenType > BlockComment
    ensures |s.token| <= s.pos
    ensures Terminated(Token(s.token, s.tokenType), text, s.pos)
  {
    assert s.next1 == Char(text[s.pos]);
  }

  /** The token a close emits has the shape of its type. */
  lemma ClosedTokenHasShape(text: string, s: Scanner)
    requires Sane(text, s) && Current(text, s) && Closes(text, s)
    ensures Shape(Token(s.token, s.tokenType))
  {
    var t := s.token;
    var k := s.tokenType;
    var p := s.pos;
    var st := p - |t|;
    if k == XmlComment {
      if p < |text| {
        assert text[p - 1] == '>';
      }
      assert |t| >= 4;
      assert t[0] == text[st] && t[1] == text[st + 1] && t[2] == text[st + 2] && t[3] == text[st + 3];
    } else if k == BlockComment {
      assert t[0] == text[st];
      if |t| >= 2 {
        assert t[1] == text[st + 1];
      }
    } else if k == SlashComment {
      if p < |text| {
        assert text[p] == '\n';
      }
      assert |t| >= 2;
      assert t[0] == text[st] && t[1] == text[st + 1];
    }
  }

  // ---------------------------------------------------------------------
  // Extending a token

  /** A character that does not close the current token extends it, and
      the token keeps the shape of its type. */
  lemma ExtendedTokenIsCurrent(text: string, s: Scanner)
    requires Sane(text, s) && Current(text, s) && s.pos < |text| && !Closes(text, s)
    ensures Current(text, Advance(text, s))
  {
    var k := s.tokenType;
    if IsQuoted(k) {
      ExtendedQuotedIsCurrent(text, s);
    } else if k == Neutral || k == Word {
      ExtendedRunIsCurrent(text, s);
    } else {
      ExtendedCommentIsCurrent(text, s);
    }
  }

  /** Extending adds the character just read to the token, which still
      ends at the new position. */
  lemma ExtendedToken(text: string, s: Scanner)
    requires Sane(text, s) && Current(text, s) && s.pos < |text| && !Closes(text, s)
    ensures var a := Advance(text, s);
            a.token == s.token + [text[s.pos]] && a.token == text[s.pos - |s.token|..s.pos + 1] &&
            a.tokenType == s.tokenType && a.tokens == s.tokens
  {
  }

  lemma ExtendedQuotedIsCurrent(text: string, s: Scanner)
    requires Sane(text, s) && Current(text, s) && s.pos < |text| && !Closes(text, s)
    requires IsQuoted(s.tokenType)
    ensures Current(text, Advance(text, s))
  {
    ExtendedToken(text, s);
    ExtendedQuoted(text, s);
  }

  lemma ExtendedRunIsCurrent(text: string, s: Scanner)
    requires Sane(text, s) && Current(text, s) && s.pos < |text| && !Closes(text, s)
    requires s.tokenType == Neutral || s.tokenType == Word
    ensures Current(text, Advance(text, s))
  {
    ExtendedToken(text, s);
    if s.tokenType == Neutral {
      assert IsSpace(text[s.pos]);
    } else {
      assert IsWordChar(text[s.pos]);
    }
  }

  lemma ExtendedCommentIsCurrent(text: string, s: Scanner)
    requires Sane(text, s) && Current(text, s) && s.pos < |text| && !Closes(text, s)
    requires s.tokenType >= XmlComment
    ensures Current(text, Advance(text, s))
  {
    if s.tokenType == XmlComment {
      ExtendedXmlIsCurrent(text, s);
    } else if s.tokenType == BlockComment {
      ExtendedBlockIsCurrent(text, s);
    } else {
      ExtendedToken(text, s);
      assert text[s.pos] != '\n';
    }
  }

  /** An xml comment that does not close has read no `-->` yet. */
  lemma ExtendedXmlIsCurrent(text: string, s: Scanner)
    requires Sane(text, s) && Current(text, s) && s.pos < |text| && !Closes(text, s)
    requires s.tokenType == XmlComment
    ensures Current(text, Advance(text, s))
  {
    ExtendedToken(text, s);
    var a := Advance(text, s);
    var t := s.token;
    var p := s.pos;
    assert t[0] == text[p - |t|];
    if |t| >= 3 {
      assert s.prev1 == Char(text[p - 2]) && s.chr == Char(text[p - 1]);
      assert t[|t| - 3] == text[p - 3] && t[|t| - 2] == text[p - 2] && t[|t| - 1] == text[p - 1];
    }
    XmlExtend(t, text[p]);
    assert a.prev1 == s.chr;
    XmlIsCurrent(text, a);
  }

  /** The xml-comment case of `Current`, from its parts. */
  lemma XmlIsCurrent(text: string, a: Scanner)
    requires a.tokenType == XmlComment && a.pos <= |text| && a.prev1 != Marker
    requires var st := a.pos - |a.token|;
             1 <= |a.token| && 0 <= st && a.token == text[st..a.pos] &&
             st + 4 <= |text| && text[st] == '<' && text[st + 1] == '!' && text[st + 2] == '-' && text[st + 3] == '-'
    requires NoEarlyXmlEnd(a.token)
    ensures Current(text, a)
  {
  }

  lemma XmlExtend(t: string, c: char)
    requires NoEarlyXmlEnd(t) && |t| >= 1 && t[0] == '<'
    requires |t| >= 3 ==> !(t[|t| - 3] == '-' && t[|t| - 2] == '-' && t[|t| - 1] == '>')
    ensures NoEarlyXmlEnd(t + [c])
  {
    var t' := t + [c];
    forall i | 0 <= i && i + 3 < |t'|
      ensures !(t'[i] == '-' && t'[i + 1] == '-' && t'[i + 2] == '>')
    {
      assert t'[i] == t[i] && t'[i + 1] == t[i + 1] && t'[i + 2] == t[i + 2];
    }
  }

  // A block comment that does not close has read no star-slash yet.
  lemma ExtendedBlockIsCurrent(text: string, s: Scanner)
    requires Sane(text, s) && Current(text, s) && s.pos < |text| && !Closes(text, s)
    requires s.tokenType == BlockComment
    ensures Current(text, Advance(text, s))
  {
    ExtendedToken(text, s);
    var t := s.token;
    var p := s.pos;
    assert t[0] == text[p - |t|];
    if |t| >= 2 {
      assert s.prev1 == Char(text[p - 2]) && s.chr == Char(text[p - 1]);
      assert t[|t| - 2] == text[p - 2] && t[|t| - 1] == text[p - 1];
    }
    BlockExtend(t, text[p]);
  }

  lemma BlockExtend(t: string, c: char)
    requires NoEarlyBlockEnd(t) && |t| >= 1 && t[0] == '/'
    requires |t| >= 2 ==> !(t[|t| - 2] == '*' && t[|t| - 1] == '/')
    ensures NoEarlyBlockEnd(t + [c])
  {
    var t' := t + [c];
    forall i | 0 <= i && i + 2 < |t'|
      ensures !(t'[i] == '*' && t'[i + 1] == '/')
    {
      assert t'[i] == t[i] && t'[i + 1] == t[i + 1];
    }
  }

  lemma ExtendedQuoted(text: string, s: Scanner)
    requires Sane(text, s) && Current(text, s) && s.pos < |text| && !Closes(text, s)
    requires IsQuoted(s.tokenType)
    ensures var a := Advance(text, s);
            var t' := s.token + [text[s.pos]];
            a.token == t' &&
            NoEarlyEnd(s.tokenType, t') &&
            (a.prev1 == Char('\\') <==> t'[|t'| - 2] == '\\' && !EscapedAfter(t'[..|t'| - 2]))
  {
    var t := s.token;
    var k := s.tokenType;
    var t' := t + [text[s.pos]];
    QuotedCloses(text, s);
    if |t| >= 2 {
      assert MaskedPrev1(s) == Char(t[|t| - 1]) <==> !EscapedAfter(t[..|t| - 1]);
      assert !FinalizeCondition(k, s.next1, MaskedPrev1(s), s.prev1, At(text, s.pos - 3), true);
      assert !EndsAt(k, t, |t| - 1);
    }
    forall j | 0 <= j < |t'| - 1
      ensures !EndsAt(k, t', j)
    {
      assert t'[..j] == t[..j] && t'[j] == t[j];
      assert !EndsAt(k, t, j);
    }
    assert t'[..|t'| - 2] == t[..|t| - 1];
  }

  // ---------------------------------------------------------------------
  // One turn of the loop, and the whole run

  lemma InitInv(text: string)
    ensures Inv(text, Init(text))
  {
  }

  /** The first turn: a leading white-space character starts a type-0
      token; anything else closes the empty token without emitting it. */
  lemma FirstStepKeepsInv(text: string, s: Scanner)
    requires Inv(text, s) && s.pos == 0
    ensures Inv(text, Advance(text, s))
  {
    var a := Advance(text, s);
    assert s == Init(text);
    if |text| == 0 {
      UndefinedIsWord();
    } else {
      assert a.token == [text[0]] == text[..1];
      assert a.tokens == [] && a.lastTokenType == None;
      if Closes(text, s) {
        NewTokenIsCurrent(text, a, MaskedPrev1(s));
      } else {
        assert a.tokenType == Neutral && IsSpace(text[0]);
        SpaceIsNeutralStart(text[0]);
        assert Current(text, a);
      }
    }
  }

  /** Inside the text, a closing character emits the current token and
      starts a new one. */
  lemma InnerCloseKeepsInv(text: string, s: Scanner)
    requires Inv(text, s) && 1 <= s.pos < |text| && Closes(text, s)
    ensures Inv(text, Advance(text, s))
  {
    CloseEmitsToken(text, s);
    CloseKeepsInside(text, s);
  }

  /** The new scan variables after a close, from the emitted tokens. */
  lemma CloseKeepsInside(text: string, s: Scanner)
    requires Sane(text, s) && 1 <= s.pos < |text| && Closes(text, s) && s.token != ""
    requires var ts := s.tokens + [Token(s.token, s.tokenType)];
             GoodTokens(text, ts) && Concat(ts) == text[..s.pos] &&
             LastSignificant(ts) == if s.tokenType != Neutral && s.tokenType < 7 then Some(s.tokenType) else s.lastTokenType
    ensures Inv(text, Advance(text, s))
  {
    var a := Advance(text, s);
    assert a.tokens == s.tokens + [Token(s.token, s.tokenType)];
    CloseStartsToken(text, s);
    PrefixStep(text, s.pos, Concat(a.tokens), a.token);
    InsideInv(text, a);
  }

  /** Closing inside the text emits a good token, and the emitted tokens
      spell the text up to the character just read. */
  lemma CloseEmitsToken(text: string, s: Scanner)
    requires Sane(text, s) && Current(text, s) && s.pos < |text| && Closes(text, s)
    requires GoodTokens(text, s.tokens) && s.lastTokenType == LastSignificant(s.tokens)
    requires Concat(s.tokens) + s.token == text[..s.pos]
    ensures var ts := s.tokens + [Token(s.token, s.tokenType)];
            GoodTokens(text, ts) && Concat(ts) == text[..s.pos] &&
            LastSignificant(ts) == if s.tokenType != Neutral && s.tokenType < 7 then Some(s.tokenType) else s.lastTokenType
  {
    var tok := Token(s.token, s.tokenType);
    assert |Concat(s.tokens)| == s.pos - |s.token|;
    ClosedTokenIsGood(text, s);
    EmitKeepsTokens(text, s.tokens, s.lastTokenType, tok);
  }

  /** The token a close inside the text emits is good where it starts. */
  lemma ClosedTokenIsGood(text: string, s: Scanner)
    requires Sane(text, s) && Current(text, s) && s.pos < |text| && Closes(text, s)
    ensures GoodToken(text, s.pos - |s.token|, Token(s.token, s.tokenType))
  {
    ClosedTokenHasShape(text, s);
    ClosedTokenIsTerminated(text, s);
  }

  /** Closing inside the text starts a one-character token of the type the
      start loop chooses. */
  lemma CloseStartsToken(text: string, s: Scanner)
    requires Sane(text, s) && 1 <= s.pos < |text| && Closes(text, s)
    requires Advance(text, s).lastTokenType == LastSignificant(Advance(text, s).tokens)
    ensures Current(text, Advance(text, s)) && Advance(text, s).token == [text[s.pos]]
  {
    var a := Advance(text, s);
    assert a.token == [text[s.pos]];
    NewTokenIsCurrent(text, a, MaskedPrev1(s));
  }

  lemma PrefixStep(text: string, p: nat, done: string, token: string)
    requires p < |text| && done == text[..p] && token == [text[p]]
    ensures done + token == text[..p + 1]
  {
  }

  lemma PrefixExtend(text: string, p: nat, done: string, token: string)
    requires p < |text| && done + token == text[..p]
    ensures done + (token + [text[p]]) == text[..p + 1]
  {
    assert done + (token + [text[p]]) == (done + token) + [text[p]];
  }

  /** The invariant at a position inside the text, from its parts. */
  lemma InsideInv(text: string, a: Scanner)
    requires Sane(text, a) && 1 <= a.pos <= |text|
    requires GoodTokens(text, a.tokens) && a.lastTokenType == LastSignificant(a.tokens)
    requires Concat(a.tokens) + a.token == text[..a.pos] && Current(text, a)
    ensures Inv(text, a)
  {
  }

  /** Inside the text, any other character extends the current token. */
  lemma InnerExtendKeepsInv(text: string, s: Scanner)
    requires Inv(text, s) && 1 <= s.pos < |text| && !Closes(text, s)
    ensures Inv(text, Advance(text, s))
  {
    var a := Advance(text, s);
    ExtendedTokenIsCurrent(text, s);
    ExtendedToken(text, s);
    PrefixExtend(text, s.pos, Concat(s.tokens), s.token);
    InsideInv(text, a);
  }

  /** At the end of the text the last token is emitted, and the start loop
      gives the word type to `undefined`. */
  lemma EndKeepsInv(text: string, s: Scanner)
    requires Inv(text, s) && 1 <= s.pos == |text|
    ensures Inv(text, Advance(text, s))
  {
    EndEmitsToken(text, s);
    EndStartsUndefined(text, s);
  }

  /** At the end of the text the emitted tokens spell the whole text. */
  lemma EndEmitsToken(text: string, s: Scanner)
    requires Inv(text, s) && 1 <= s.pos == |text|
    ensures var a := Advance(text, s);
            GoodTokens(text, a.tokens) && a.lastTokenType == LastSignificant(a.tokens) &&
            Concat(a.tokens) == text
  {
    var tok := Token(s.token, s.tokenType);
    var a := Advance(text, s);
    assert a.tokens == s.tokens + [tok];
    assert text[..|text|] == text;
    ClosedTokenHasShape(text, s);
    EmitKeepsTokens(text, s.tokens, s.lastTokenType, tok);
  }

  /** Reading past the end of the text starts the word `undefined`. */
  lemma EndStartsUndefined(text: string, s: Scanner)
    requires Sane(text, s) && 1 <= s.pos == |text|
    ensures Advance(text, s).token == "undefined" && Advance(text, s).tokenType == Word
  {
    UndefinedIsWord();
  }

  /** The extra turn after a text that ends in an unescaped backslash: the
      token `undefined` is emitted as a word. */
  lemma ArtefactKeepsInv(text: string, s: Scanner)
    requires Inv(text, s) && s.pos == |text| + 1 && Running(s)
    ensures Inv(text, Advance(text, s))
  {
    var tok := Token(s.token, s.tokenType);
    var a := Advance(text, s);
    assert a.tokens == s.tokens + [tok];
    UndefinedIsWord();
    EmitKeepsTokens(text, s.tokens, s.lastTokenType, tok);
  }

  /** `undefined`, read past the end of the text, is a word. */
  lemma UndefinedIsWord()
    ensures SymText(Undefined) == "undefined" && Shape(Token("undefined", Word))
  {
  }

  /** One turn of the loop keeps the invariant. */
  lemma AdvanceKeepsInv(text: string, s: Scanner)
    requires Inv(text, s) && Running(s)
    ensures Inv(text, Advance(text, s))
  {
    if s.pos == 0 {
      FirstStepKeepsInv(text, s);
    } else if s.pos < |text| {
      if Closes(text, s) {
        InnerCloseKeepsInv(text, s);
      } else {
        InnerExtendKeepsInv(text, s);
      }
    } else if s.pos == |text| {
      EndKeepsInv(text, s);
    } else {
      ArtefactKeepsInv(text, s);
    }
  }

  /** The whole run keeps the invariant. */
  lemma {:induction false} RunKeepsInv(text: string, s: Scanner)
    requires Inv(text, s)
    ensures Inv(text, Run(text, s))
    decreases |text| + 2 - s.pos
  {
    if Running(s) {
      AdvanceKeepsInv(text, s);
      RunKeepsInv(text, Advance(text, s));
    }
  }

  /** The invariant at the end of `parse`. */
  lemma FinalInv(text: string)
    ensures Inv(text, Run(text, Init(text)))
  {
    InitInv(text);
    RunKeepsInv(text, Init(text));
  }
}
