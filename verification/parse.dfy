/** `parse(text, options)`: the scan loop as the source writes it, proved to
    compute `Scanner.Highlight`. */
module Parse {
  import opened Chars
  import opened Scanner

  method Parse(text: string, options: Options) returns (out: string)
    requires PlainKeywords(options.keywords)
    ensures out == Highlight(text, options)
  {
    var pos := 0;
    var next1 := At(text, 0);
    var chr := Marker;
    var prev1 := Undefined;
    var prev2 := Undefined;
    var token := "";
    var result: seq<string> := [];
    var tokenType := Neutral;
    var lastTokenType: Option<TokenType> := None;
    ghost var g := Init(text);

    while true
      invariant Sane(text, g) && Run(text, g) == Run(text, Init(text))
      invariant g.pos == pos && g.next1 == next1 && g.chr == chr && g.prev1 == prev1 && g.prev2 == prev2
      invariant g.token == token && g.tokenType == tokenType && g.lastTokenType == lastTokenType
      invariant result == FormatAll(g.tokens, options)
      decreases |text| + 2 - pos
    {
      prev2 := prev1;
      // escaping: a character after a backslash is not a finalize condition,
      // except in comments
      prev1 := if tokenType < 7 && prev1 == Char('\\') then Marker else chr;
      if prev1 == Undefined {
        break;
      }
      chr := next1;
      pos := pos + 1;
      next1 := At(text, pos);
      token, tokenType, lastTokenType, result :=
        Turn(text, options, g, pos, next1, chr, prev1, prev2, token, tokenType, lastTokenType, result);
      RunStep(text, g);
      g := Advance(text, g);
    }
    out := Join(result);
  }

  /** The start loop: from type 10 down, the first type whose start
      condition holds (type 0's always does). */
  method FindStartType(chr: Sym, next1: Sym, next2: Sym, next3: Sym,
                       prev1: Sym, lastTokenType: Option<TokenType>) returns (tokenType: TokenType)
    ensures tokenType == StartType(chr, next1, next2, next3, prev1, lastTokenType)
  {
    var t := 11;
    while true
      invariant 0 < t <= 11
      invariant forall u :: t <= u <= 10 ==> !StartCondition(u, chr, next1, next2, next3, prev1, lastTokenType)
      decreases t
    {
      t := t - 1;
      if StartCondition(t, chr, next1, next2, next3, prev1, lastTokenType) {
        break;
      }
    }
    StartTypeIsHighestMatch(t, chr, next1, next2, next3, prev1, lastTokenType);
    tokenType := t as TokenType;
  }

  /** The rest of a turn, once the next character has been read: if the
      current token ends here, emit it formatted (unless it is empty),
      remember its type when significant and start a new token of the type
      the start loop picks; then append the character. The ghost `tokens`
      are the tokens emitted so far, which `result` holds formatted. */
  method CloseOrExtend(text: string, options: Options, pos: int, next1: Sym, chr: Sym, prev1: Sym, prev2: Sym,
                       token: string, tokenType: TokenType, lastTokenType: Option<TokenType>,
                       result: seq<string>, ghost tokens: seq<Token>)
    returns (token': string, tokenType': TokenType, lastTokenType': Option<TokenType>,
             result': seq<string>, ghost tokens': seq<Token>)
    requires result == FormatAll(tokens, options)
    ensures result' == FormatAll(tokens', options)
    ensures ShouldClose(tokenType, chr, prev1, prev2, At(text, pos - 4), |token| > 1) ==>
              tokens' == (if token != "" then tokens + [Token(token, tokenType)] else tokens)
    ensures !ShouldClose(tokenType, chr, prev1, prev2, At(text, pos - 4), |token| > 1) ==> tokens' == tokens
    ensures ShouldClose(tokenType, chr, prev1, prev2, At(text, pos - 4), |token| > 1) ==>
              lastTokenType' == (if tokenType != Neutral && tokenType < 7 then Some(tokenType) else lastTokenType) &&
              tokenType' == StartType(chr, next1, At(text, pos + 1), At(text, pos + 2), prev1, lastTokenType') &&
              token' == SymText(chr)
    ensures !ShouldClose(tokenType, chr, prev1, prev2, At(text, pos - 4), |token| > 1) ==>
              lastTokenType' == lastTokenType && tokenType' == tokenType && token' == token + SymText(chr)
  {
    token', tokenType', lastTokenType', result', tokens' := token, tokenType, lastTokenType, result, tokens;
    var multichar := |token| > 1;
    if ShouldClose(tokenType, chr, prev1, prev2, At(text, pos - 4), multichar) {
      if token != "" {
        FormatAllAppend(tokens, Token(token, tokenType), options);
        result' := result + [Format(Token(token, tokenType), options)];
        tokens' := tokens + [Token(token, tokenType)];
      }
      lastTokenType' := if tokenType != Neutral && tokenType < 7 then Some(tokenType) else lastTokenType;
      token' := "";
      tokenType' := FindStartType(chr, next1, At(text, pos + 1), At(text, pos + 2), prev1, lastTokenType');
    }
    token' := token' + SymText(chr);
  }

  /** The rest of the turn that started from the scan state `g`, once the
      loop condition has held and the next character has been read: the
      token, the types and the output it leaves are those of `Advance`. */
  method Turn(text: string, options: Options, ghost g: Scanner,
              pos: int, next1: Sym, chr: Sym, prev1: Sym, prev2: Sym,
              token: string, tokenType: TokenType, lastTokenType: Option<TokenType>, result: seq<string>)
    returns (token': string, tokenType': TokenType, lastTokenType': Option<TokenType>, result': seq<string>)
    requires Sane(text, g) && Running(g)
    requires pos == g.pos + 1 && next1 == At(text, pos) && chr == g.next1
    requires prev1 == MaskedPrev1(g) && prev2 == g.prev1
    requires token == g.token && tokenType == g.tokenType && lastTokenType == g.lastTokenType
    requires result == FormatAll(g.tokens, options)
    ensures Advance(text, g) == Scanner(pos, next1, chr, prev1, prev2, token', tokenType', lastTokenType', Advance(text, g).tokens)
    ensures result' == FormatAll(Advance(text, g).tokens, options)
  {
    ghost var closes := ShouldClose(tokenType, chr, prev1, prev2, At(text, pos - 4), |token| > 1);
    ghost var tokens;
    token', tokenType', lastTokenType', result', tokens :=
      CloseOrExtend(text, options, pos, next1, chr, prev1, prev2, token, tokenType, lastTokenType, result, g.tokens);
    TurnIsAdvance(text, g, closes, Scanner(pos, next1, chr, prev1, prev2, token', tokenType', lastTokenType', tokens));
  }

  /** The variables after one turn of the loop body are the fields of
      `Advance` applied to the variables before it. */
  lemma TurnIsAdvance(text: string, g: Scanner, closes: bool, a: Scanner)
    requires Sane(text, g) && Running(g)
    requires a.pos == g.pos + 1 && a.next1 == At(text, a.pos) && a.chr == g.next1
    requires a.prev1 == MaskedPrev1(g) && a.prev2 == g.prev1
    requires closes == ShouldClose(g.tokenType, a.chr, a.prev1, a.prev2, At(text, a.pos - 4), |g.token| > 1)
    requires closes ==>
               a.tokens == (if g.token != "" then g.tokens + [Token(g.token, g.tokenType)] else g.tokens) &&
               a.lastTokenType == (if g.tokenType != Neutral && g.tokenType < 7 then Some(g.tokenType) else g.lastTokenType) &&
               a.tokenType == StartType(a.chr, a.next1, At(text, a.pos + 1), At(text, a.pos + 2), a.prev1, a.lastTokenType) &&
               a.token == SymText(a.chr)
    requires !closes ==>
               a.tokens == g.tokens && a.lastTokenType == g.lastTokenType &&
               a.tokenType == g.tokenType && a.token == g.token + SymText(a.chr)
    ensures Advance(text, g) == a
  {
    assert At(text, a.pos - 4) == At(text, g.pos - 3);
    assert closes == Closes(text, g);
  }
}
