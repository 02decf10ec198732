/** Concrete runs of the scan loop, turn by turn. Each scenario states the
    tokens `parse` emits for one text; the turn lemmas below it give the
    scan variables after each turn. */
module Scenarios {
  import opened Chars
  import opened Scanner

  // A slash after a word is a division operator.
  lemma Division()
    ensures Tokens("1 / 2") == [Token("1", Word), Token(" ", Neutral), Token("/", Operator), Token(" ", Neutral), Token("2", Word)]
  {
    var text := "1 / 2";
    DivisionText1();
    DivisionRun1(text);
  }

  lemma DivisionText1()
    ensures var text := "1 / 2";
            |text| == 5 && text[0] == '1' && text[1] == ' ' && text[2] == '/' && text[3] == ' ' && text[4] == '2'
  {
  }

  lemma DivisionRun1(text: string)
    requires |text| == 5 && text[0] == '1' && text[1] == ' ' && text[2] == '/' && text[3] == ' ' && text[4] == '2'
    ensures Run(text, Init(text)) == Scanner(6, Undefined, Undefined, Char('2'), Char(' '), "undefined", Word, Some(Word), [Token("1", Word), Token(" ", Neutral), Token("/", Operator), Token(" ", Neutral), Token("2", Word)])
  {
    var s0 := Init(text);
    var s1 := Scanner(1, Char(' '), Char('1'), Marker, Undefined, "1", Word, None, []);
    var s2 := Scanner(2, Char('/'), Char(' '), Char('1'), Marker, " ", Neutral, Some(Word), [Token("1", Word)]);
    var s3 := Scanner(3, Char(' '), Char('/'), Char(' '), Char('1'), "/", Operator, Some(Word), [Token("1", Word), Token(" ", Neutral)]);
    var s4 := Scanner(4, Char('2'), Char(' '), Char('/'), Char(' '), " ", Neutral, Some(Operator), [Token("1", Word), Token(" ", Neutral), Token("/", Operator)]);
    var s5 := Scanner(5, Undefined, Char('2'), Char(' '), Char('/'), "2", Word, Some(Operator), [Token("1", Word), Token(" ", Neutral), Token("/", Operator), Token(" ", Neutral)]);
    var s6 := Scanner(6, Undefined, Undefined, Char('2'), Char(' '), "undefined", Word, Some(Word), [Token("1", Word), Token(" ", Neutral), Token("/", Operator), Token(" ", Neutral), Token("2", Word)]);
    DivisionStep1(text);
    RunStep(text, s0);
    DivisionStep2(text);
    RunStep(text, s1);
    DivisionStep3(text);
    RunStep(text, s2);
    DivisionStep4(text);
    RunStep(text, s3);
    DivisionStep5(text);
    RunStep(text, s4);
    DivisionStep6(text);
    RunStep(text, s5);
  }

  lemma DivisionStep1(text: string)
    requires |text| == 5 && text[0] == '1' && text[1] == ' ' && text[2] == '/' && text[3] == ' '
    ensures Sane(text, Init(text)) && Running(Init(text))
    ensures Advance(text, Init(text)) == Scanner(1, Char(' '), Char('1'), Marker, Undefined, "1", Word, None, [])
  {
    assert Closes(text, Init(text));
  }

  lemma DivisionStep2(text: string)
    requires |text| == 5 && text[0] == '1' && text[1] == ' ' && text[2] == '/' && text[3] == ' ' && text[4] == '2'
    ensures Sane(text, Scanner(1, Char(' '), Char('1'), Marker, Undefined, "1", Word, None, [])) && Running(Scanner(1, Char(' '), Char('1'), Marker, Undefined, "1", Word, None, []))
    ensures Advance(text, Scanner(1, Char(' '), Char('1'), Marker, Undefined, "1", Word, None, [])) == Scanner(2, Char('/'), Char(' '), Char('1'), Marker, " ", Neutral, Some(Word), [Token("1", Word)])
  {
    assert Closes(text, Scanner(1, Char(' '), Char('1'), Marker, Undefined, "1", Word, None, []));
  }

  lemma DivisionStep3(text: string)
    requires |text| == 5 && text[0] == '1' && text[1] == ' ' && text[2] == '/' && text[3] == ' ' && text[4] == '2'
    ensures Sane(text, Scanner(2, Char('/'), Char(' '), Char('1'), Marker, " ", Neutral, Some(Word), [Token("1", Word)])) && Running(Scanner(2, Char('/'), Char(' '), Char('1'), Marker, " ", Neutral, Some(Word), [Token("1", Word)]))
    ensures Advance(text, Scanner(2, Char('/'), Char(' '), Char('1'), Marker, " ", Neutral, Some(Word), [Token("1", Word)])) == Scanner(3, Char(' '), Char('/'), Char(' '), Char('1'), "/", Operator, Some(Word), [Token("1", Word), Token(" ", Neutral)])
  {
    assert Closes(text, Scanner(2, Char('/'), Char(' '), Char('1'), Marker, " ", Neutral, Some(Word), [Token("1", Word)]));
  }

  lemma DivisionStep4(text: string)
    requires |text| == 5 && text[0] == '1' && text[1] == ' ' && text[2] == '/' && text[3] == ' ' && text[4] == '2'
    ensures Sane(text, Scanner(3, Char(' '), Char('/'), Char(' '), Char('1'), "/", Operator, Some(Word), [Token("1", Word), Token(" ", Neutral)])) && Running(Scanner(3, Char(' '), Char('/'), Char(' '), Char('1'), "/", Operator, Some(Word), [Token("1", Word), Token(" ", Neutral)]))
    ensures Advance(text, Scanner(3, Char(' '), Char('/'), Char(' '), Char('1'), "/", Operator, Some(Word), [Token("1", Word), Token(" ", Neutral)])) == Scanner(4, Char('2'), Char(' '), Char('/'), Char(' '), " ", Neutral, Some(Operator), [Token("1", Word), Token(" ", Neutral), Token("/", Operator)])
  {
    assert Closes(text, Scanner(3, Char(' '), Char('/'), Char(' '), Char('1'), "/", Operator, Some(Word), [Token("1", Word), Token(" ", Neutral)]));
  }

  lemma DivisionStep5(text: string)
    requires |text| == 5 && text[1] == ' ' && text[2] == '/' && text[3] == ' ' && text[4] == '2'
    ensures Sane(text, Scanner(4, Char('2'), Char(' '), Char('/'), Char(' '), " ", Neutral, Some(Operator), [Token("1", Word), Token(" ", Neutral), Token("/", Operator)])) && Running(Scanner(4, Char('2'), Char(' '), Char('/'), Char(' '), " ", Neutral, Some(Operator), [Token("1", Word), Token(" ", Neutral), Token("/", Operator)]))
    ensures Advance(text, Scanner(4, Char('2'), Char(' '), Char('/'), Char(' '), " ", Neutral, Some(Operator), [Token("1", Word), Token(" ", Neutral), Token("/", Operator)])) == Scanner(5, Undefined, Char('2'), Char(' '), Char('/'), "2", Word, Some(Operator), [Token("1", Word), Token(" ", Neutral), Token("/", Operator), Token(" ", Neutral)])
  {
    assert Closes(text, Scanner(4, Char('2'), Char(' '), Char('/'), Char(' '), " ", Neutral, Some(Operator), [Token("1", Word), Token(" ", Neutral), Token("/", Operator)]));
  }

  lemma DivisionStep6(text: string)
    requires |text| == 5 && text[2] == '/' && text[3] == ' ' && text[4] == '2'
    ensures Sane(text, Scanner(5, Undefined, Char('2'), Char(' '), Char('/'), "2", Word, Some(Operator), [Token("1", Word), Token(" ", Neutral), Token("/", Operator), Token(" ", Neutral)])) && Running(Scanner(5, Undefined, Char('2'), Char(' '), Char('/'), "2", Word, Some(Operator), [Token("1", Word), Token(" ", Neutral), Token("/", Operator), Token(" ", Neutral)]))
    ensures Advance(text, Scanner(5, Undefined, Char('2'), Char(' '), Char('/'), "2", Word, Some(Operator), [Token("1", Word), Token(" ", Neutral), Token("/", Operator), Token(" ", Neutral)])) == Scanner(6, Undefined, Undefined, Char('2'), Char(' '), "undefined", Word, Some(Word), [Token("1", Word), Token(" ", Neutral), Token("/", Operator), Token(" ", Neutral), Token("2", Word)])
    ensures !Running(Scanner(6, Undefined, Undefined, Char('2'), Char(' '), "undefined", Word, Some(Word), [Token("1", Word), Token(" ", Neutral), Token("/", Operator), Token(" ", Neutral), Token("2", Word)]))
  {
    assert Closes(text, Scanner(5, Undefined, Char('2'), Char(' '), Char('/'), "2", Word, Some(Operator), [Token("1", Word), Token(" ", Neutral), Token("/", Operator), Token(" ", Neutral)]));
  }

  // A slash after an operator starts a regex, which ends at the next unescaped slash.
  lemma RegexAfterOperator()
    ensures Tokens("x = /ab/") == [Token("x", Word), Token(" ", Neutral), Token("=", Operator), Token(" ", Neutral), Token("/ab/", Regex)]
  {
    var text := "x = /ab/";
    RegexAfterOperatorText1();
    RegexAfterOperatorRun1(text);
    RegexAfterOperatorRun2(text);
  }

  lemma RegexAfterOperatorText1()
    ensures var text := "x = /ab/";
            |text| == 8 && text[0] == 'x' && text[1] == ' ' && text[2] == '=' && text[3] == ' ' && text[4] == '/' && text[5] == 'a' && text[6] == 'b' && text[7] == '/'
  {
  }

  lemma RegexAfterOperatorRun1(text: string)
    requires |text| == 8 && text[0] == 'x' && text[1] == ' ' && text[2] == '=' && text[3] == ' ' && text[4] == '/' && text[5] == 'a' && text[6] == 'b' && text[7] == '/'
    ensures Run(text, Init(text)) == Run(text, Scanner(6, Char('b'), Char('a'), Char('/'), Char(' '), "/a", Regex, Some(Operator), [Token("x", Word), Token(" ", Neutral), Token("=", Operator), Token(" ", Neutral)]))
  {
    var s0 := Init(text);
    var s1 := Scanner(1, Char(' '), Char('x'), Marker, Undefined, "x", Word, None, []);
    var s2 := Scanner(2, Char('='), Char(' '), Char('x'), Marker, " ", Neutral, Some(Word), [Token("x", Word)]);
    var s3 := Scanner(3, Char(' '), Char('='), Char(' '), Char('x'), "=", Operator, Some(Word), [Token("x", Word), Token(" ", Neutral)]);
    var s4 := Scanner(4, Char('/'), Char(' '), Char('='), Char(' '), " ", Neutral, Some(Operator), [Token("x", Word), Token(" ", Neutral), Token("=", Operator)]);
    var s5 := Scanner(5, Char('a'), Char('/'), Char(' '), Char('='), "/", Regex, Some(Operator), [Token("x", Word), Token(" ", Neutral), Token("=", Operator), Token(" ", Neutral)]);
    var s6 := Scanner(6, Char('b'), Char('a'), Char('/'), Char(' '), "/a", Regex, Some(Operator), [Token("x", Word), Token(" ", Neutral), Token("=", Operator), Token(" ", Neutral)]);
    RegexAfterOperatorStep1(text);
    RunStep(text, s0);
    RegexAfterOperatorStep2(text);
    RunStep(text, s1);
    RegexAfterOperatorStep3(text);
    RunStep(text, s2);
    RegexAfterOperatorStep4(text);
    RunStep(text, s3);
    RegexAfterOperatorStep5(text);
    RunStep(text, s4);
    RegexAfterOperatorStep6(text);
    RunStep(text, s5);
  }

  lemma RegexAfterOperatorRun2(text: string)
    requires |text| == 8 && text[3] == ' ' && text[4] == '/' && text[5] == 'a' && text[6] == 'b' && text[7] == '/'
    ensures Run(text, Scanner(6, Char('b'), Char('a'), Char('/'), Char(' '), "/a", Regex, Some(Operator), [Token("x", Word), Token(" ", Neutral), Token("=", Operator), Token(" ", Neutral)])) == Scanner(9, Undefined, Undefined, Char('/'), Char('b'), "undefined", Word, Some(Regex), [Token("x", Word), Token(" ", Neutral), Token("=", Operator), Token(" ", Neutral), Token("/ab/", Regex)])
  {
    var s6 := Scanner(6, Char('b'), Char('a'), Char('/'), Char(' '), "/a", Regex, Some(Operator), [Token("x", Word), Token(" ", Neutral), Token("=", Operator), Token(" ", Neutral)]);
    var s7 := Scanner(7, Char('/'), Char('b'), Char('a'), Char('/'), "/ab", Regex, Some(Operator), [Token("x", Word), Token(" ", Neutral), Token("=", Operator), Token(" ", Neutral)]);
    var s8 := Scanner(8, Undefined, Char('/'), Char('b'), Char('a'), "/ab/", Regex, Some(Operator), [Token("x", Word), Token(" ", Neutral), Token("=", Operator), Token(" ", Neutral)]);
    var s9 := Scanner(9, Undefined, Undefined, Char('/'), Char('b'), "undefined", Word, Some(Regex), [Token("x", Word), Token(" ", Neutral), Token("=", Operator), Token(" ", Neutral), Token("/ab/", Regex)]);
    RegexAfterOperatorStep7(text);
    RunStep(text, s6);
    RegexAfterOperatorStep8(text);
    RunStep(text, s7);
    RegexAfterOperatorStep9(text);
    RunStep(text, s8);
  }

  lemma RegexAfterOperatorStep1(text: string)
    requires |text| == 8 && text[0] == 'x' && text[1] == ' ' && text[2] == '=' && text[3] == ' '
    ensures Sane(text, Init(text)) && Running(Init(text))
    ensures Advance(text, Init(text)) == Scanner(1, Char(' '), Char('x'), Marker, Undefined, "x", Word, None, [])
  {
    assert Closes(text, Init(text));
  }

  lemma RegexAfterOperatorStep2(text: string)
    requires |text| == 8 && text[0] == 'x' && text[1] == ' ' && text[2] == '=' && text[3] == ' ' && text[4] == '/'
    ensures Sane(text, Scanner(1, Char(' '), Char('x'), Marker, Undefined, "x", Word, None, [])) && Running(Scanner(1, Char(' '), Char('x'), Marker, Undefined, "x", Word, None, []))
    ensures Advance(text, Scanner(1, Char(' '), Char('x'), Marker, Undefined, "x", Word, None, [])) == Scanner(2, Char('='), Char(' '), Char('x'), Marker, " ", Neutral, Some(Word), [Token("x", Word)])
  {
    assert Closes(text, Scanner(1, Char(' '), Char('x'), Marker, Undefined, "x", Word, None, []));
  }

  lemma RegexAfterOperatorStep3(text: string)
    requires |text| == 8 && text[0] == 'x' && text[1] == ' ' && text[2] == '=' && text[3] == ' ' && text[4] == '/' && text[5] == 'a'
    ensures Sane(text, Scanner(2, Char('='), Char(' '), Char('x'), Marker, " ", Neutral, Some(Word), [Token("x", Word)])) && Running(Scanner(2, Char('='), Char(' '), Char('x'), Marker, " ", Neutral, Some(Word), [Token("x", Word)]))
    ensures Advance(text, Scanner(2, Char('='), Char(' '), Char('x'), Marker, " ", Neutral, Some(Word), [Token("x", Word)])) == Scanner(3, Char(' '), Char('='), Char(' '), Char('x'), "=", Operator, Some(Word), [Token("x", Word), Token(" ", Neutral)])
  {
    assert Closes(text, Scanner(2, Char('='), Char(' '), Char('x'), Marker, " ", Neutral, Some(Word), [Token("x", Word)]));
  }

  lemma RegexAfterOperatorStep4(text: string)
    requires |text| == 8 && text[0] == 'x' && text[1] == ' ' && text[2] == '=' && text[3] == ' ' && text[4] == '/' && text[5] == 'a' && text[6] == 'b'
    ensures Sane(text, Scanner(3, Char(' '), Char('='), Char(' '), Char('x'), "=", Operator, Some(Word), [Token("x", Word), Token(" ", Neutral)])) && Running(Scanner(3, Char(' '), Char('='), Char(' '), Char('x'), "=", Operator, Some(Word), [Token("x", Word), Token(" ", Neutral)]))
    ensures Advance(text, Scanner(3, Char(' '), Char('='), Char(' '), Char('x'), "=", Operator, Some(Word), [Token("x", Word), Token(" ", Neutral)])) == Scanner(4, Char('/'), Char(' '), Char('='), Char(' '), " ", Neutral, Some(Operator), [Token("x", Word), Token(" ", Neutral), Token("=", Operator)])
  {
    assert Closes(text, Scanner(3, Char(' '), Char('='), Char(' '), Char('x'), "=", Operator, Some(Word), [Token("x", Word), Token(" ", Neutral)]));
  }

  lemma RegexAfterOperatorStep5(text: string)
    requires |text| == 8 && text[1] == ' ' && text[2] == '=' && text[3] == ' ' && text[4] == '/' && text[5] == 'a' && text[6] == 'b' && text[7] == '/'
    ensures Sane(text, Scanner(4, Char('/'), Char(' '), Char('='), Char(' '), " ", Neutral, Some(Operator), [Token("x", Word), Token(" ", Neutral), Token("=", Operator)])) && Running(Scanner(4, Char('/'), Char(' '), Char('='), Char(' '), " ", Neutral, Some(Operator), [Token("x", Word), Token(" ", Neutral), Token("=", Operator)]))
    ensures Advance(text, Scanner(4, Char('/'), Char(' '), Char('='), Char(' '), " ", Neutral, Some(Operator), [Token("x", Word), Token(" ", Neutral), Token("=", Operator)])) == Scanner(5, Char('a'), Char('/'), Char(' '), Char('='), "/", Regex, Some(Operator), [Token("x", Word), Token(" ", Neutral), Token("=", Operator), Token(" ", Neutral)])
  {
    assert Closes(text, Scanner(4, Char('/'), Char(' '), Char('='), Char(' '), " ", Neutral, Some(Operator), [Token("x", Word), Token(" ", Neutral), Token("=", Operator)]));
  }

  lemma RegexAfterOperatorStep6(text: string)
    requires |text| == 8 && text[2] == '=' && text[3] == ' ' && text[4] == '/' && text[5] == 'a' && text[6] == 'b' && text[7] == '/'
    ensures Sane(text, Scanner(5, Char('a'), Char('/'), Char(' '), Char('='), "/", Regex, Some(Operator), [Token("x", Word), Token(" ", Neutral), Token("=", Operator), Token(" ", Neutral)])) && Running(Scanner(5, Char('a'), Char('/'), Char(' '), Char('='), "/", Regex, Some(Operator), [Token("x", Word), Token(" ", Neutral), Token("=", Operator), Token(" ", Neutral)]))
    ensures Advance(text, Scanner(5, Char('a'), Char('/'), Char(' '), Char('='), "/", Regex, Some(Operator), [Token("x", Word), Token(" ", Neutral), Token("=", Operator), Token(" ", Neutral)])) == Scanner(6, Char('b'), Char('a'), Char('/'), Char(' '), "/a", Regex, Some(Operator), [Token("x", Word), Token(" ", Neutral), Token("=", Operator), Token(" ", Neutral)])
  {
    assert !Closes(text, Scanner(5, Char('a'), Char('/'), Char(' '), Char('='), "/", Regex, Some(Operator), [Token("x", Word), Token(" ", Neutral), Token("=", Operator), Token(" ", Neutral)]));
  }

  lemma RegexAfterOperatorStep7(text: string)
    requires |text| == 8 && text[3] == ' ' && text[4] == '/' && text[5] == 'a' && text[6] == 'b' && text[7] == '/'
    ensures Sane(text, Scanner(6, Char('b'), Char('a'), Char('/'), Char(' '), "/a", Regex, Some(Operator), [Token("x", Word), Token(" ", Neutral), Token("=", Operator), Token(" ", Neutral)])) && Running(Scanner(6, Char('b'), Char('a'), Char('/'), Char(' '), "/a", Regex, Some(Operator), [Token("x", Word), Token(" ", Neutral), Token("=", Operator), Token(" ", Neutral)]))
    ensures Advance(text, Scanner(6, Char('b'), Char('a'), Char('/'), Char(' '), "/a", Regex, Some(Operator), [Token("x", Word), Token(" ", Neutral), Token("=", Operator), Token(" ", Neutral)])) == Scanner(7, Char('/'), Char('b'), Char('a'), Char('/'), "/ab", Regex, Some(Operator), [Token("x", Word), Token(" ", Neutral), Token("=", Operator), Token(" ", Neutral)])
  {
    assert !Closes(text, Scanner(6, Char('b'), Char('a'), Char('/'), Char(' '), "/a", Regex, Some(Operator), [Token("x", Word), Token(" ", Neutral), Token("=", Operator), Token(" ", Neutral)]));
  }

  lemma RegexAfterOperatorStep8(text: string)
    requires |text| == 8 && text[4] == '/' && text[5] == 'a' && text[6] == 'b' && text[7] == '/'
    ensures Sane(text, Scanner(7, Char('/'), Char('b'), Char('a'), Char('/'), "/ab", Regex, Some(Operator), [Token("x", Word), Token(" ", Neutral), Token("=", Operator), Token(" ", Neutral)])) && Running(Scanner(7, Char('/'), Char('b'), Char('a'), Char('/'), "/ab", Regex, Some(Operator), [Token("x", Word), Token(" ", Neutral), Token("=", Operator), Token(" ", Neutral)]))
    ensures Advance(text, Scanner(7, Char('/'), Char('b'), Char('a'), Char('/'), "/ab", Regex, Some(Operator), [Token("x", Word), Token(" ", Neutral), Token("=", Operator), Token(" ", Neutral)])) == Scanner(8, Undefined, Char('/'), Char('b'), Char('a'), "/ab/", Regex, Some(Operator), [Token("x", Word), Token(" ", Neutral), Token("=", Operator), Token(" ", Neutral)])
  {
    assert !Closes(text, Scanner(7, Char('/'), Char('b'), Char('a'), Char('/'), "/ab", Regex, Some(Operator), [Token("x", Word), Token(" ", Neutral), Token("=", Operator), Token(" ", Neutral)]));
  }

  lemma RegexAfterOperatorStep9(text: string)
    requires |text| == 8 && text[5] == 'a' && text[6] == 'b' && text[7] == '/'
    ensures Sane(text, Scanner(8, Undefined, Char('/'), Char('b'), Char('a'), "/ab/", Regex, Some(Operator), [Token("x", Word), Token(" ", Neutral), Token("=", Operator), Token(" ", Neutral)])) && Running(Scanner(8, Undefined, Char('/'), Char('b'), Char('a'), "/ab/", Regex, Some(Operator), [Token("x", Word), Token(" ", Neutral), Token("=", Operator), Token(" ", Neutral)]))
    ensures Advance(text, Scanner(8, Undefined, Char('/'), Char('b'), Char('a'), "/ab/", Regex, Some(Operator), [Token("x", Word), Token(" ", Neutral), Token("=", Operator), Token(" ", Neutral)])) == Scanner(9, Undefined, Undefined, Char('/'), Char('b'), "undefined", Word, Some(Regex), [Token("x", Word), Token(" ", Neutral), Token("=", Operator), Token(" ", Neutral), Token("/ab/", Regex)])
    ensures !Running(Scanner(9, Undefined, Undefined, Char('/'), Char('b'), "undefined", Word, Some(Regex), [Token("x", Word), Token(" ", Neutral), Token("=", Operator), Token(" ", Neutral), Token("/ab/", Regex)]))
  {
    assert Closes(text, Scanner(8, Undefined, Char('/'), Char('b'), Char('a'), "/ab/", Regex, Some(Operator), [Token("x", Word), Token(" ", Neutral), Token("=", Operator), Token(" ", Neutral)]));
  }

  // An escaped quote does not end a string.
  lemma EscapedQuote()
    ensures Tokens("\"a\\\"b\"") == [Token("\"a\\\"b\"", DoubleQuoted)]
  {
    var text := "\"a\\\"b\"";
    EscapedQuoteText1();
    EscapedQuoteRun1(text);
    EscapedQuoteRun2(text);
  }

  lemma EscapedQuoteText1()
    ensures var text := "\"a\\\"b\"";
            |text| == 6 && text[0] == '"' && text[1] == 'a' && text[2] == '\\' && text[3] == '"' && text[4] == 'b' && text[5] == '"'
  {
  }

  lemma EscapedQuoteRun1(text: string)
    requires |text| == 6 && text[0] == '"' && text[1] == 'a' && text[2] == '\\' && text[3] == '"' && text[4] == 'b' && text[5] == '"'
    ensures Run(text, Init(text)) == Run(text, Scanner(6, Undefined, Char('"'), Char('b'), Marker, "\"a\\\"b\"", DoubleQuoted, None, []))
  {
    var s0 := Init(text);
    var s1 := Scanner(1, Char('a'), Char('"'), Marker, Undefined, "\"", DoubleQuoted, None, []);
    var s2 := Scanner(2, Char('\\'), Char('a'), Char('"'), Marker, "\"a", DoubleQuoted, None, []);
    var s3 := Scanner(3, Char('"'), Char('\\'), Char('a'), Char('"'), "\"a\\", DoubleQuoted, None, []);
    var s4 := Scanner(4, Char('b'), Char('"'), Char('\\'), Char('a'), "\"a\\\"", DoubleQuoted, None, []);
    var s5 := Scanner(5, Char('"'), Char('b'), Marker, Char('\\'), "\"a\\\"b", DoubleQuoted, None, []);
    var s6 := Scanner(6, Undefined, Char('"'), Char('b'), Marker, "\"a\\\"b\"", DoubleQuoted, None, []);
    EscapedQuoteStep1(text);
    RunStep(text, s0);
    EscapedQuoteStep2(text);
    RunStep(text, s1);
    EscapedQuoteStep3(text);
    RunStep(text, s2);
    EscapedQuoteStep4(text);
    RunStep(text, s3);
    EscapedQuoteStep5(text);
    RunStep(text, s4);
    EscapedQuoteStep6(text);
    RunStep(text, s5);
  }

  lemma EscapedQuoteRun2(text: string)
    requires |text| == 6 && text[3] == '"' && text[4] == 'b' && text[5] == '"'
    ensures Run(text, Scanner(6, Undefined, Char('"'), Char('b'), Marker, "\"a\\\"b\"", DoubleQuoted, None, [])) == Scanner(7, Undefined, Undefined, Char('"'), Char('b'), "undefined", Word, Some(DoubleQuoted), [Token("\"a\\\"b\"", DoubleQuoted)])
  {
    var s6 := Scanner(6, Undefined, Char('"'), Char('b'), Marker, "\"a\\\"b\"", DoubleQuoted, None, []);
    var s7 := Scanner(7, Undefined, Undefined, Char('"'), Char('b'), "undefined", Word, Some(DoubleQuoted), [Token("\"a\\\"b\"", DoubleQuoted)]);
    EscapedQuoteStep7(text);
    RunStep(text, s6);
  }

  lemma EscapedQuoteStep1(text: string)
    requires |text| == 6 && text[0] == '"' && text[1] == 'a' && text[2] == '\\' && text[3] == '"'
    ensures Sane(text, Init(text)) && Running(Init(text))
    ensures Advance(text, Init(text)) == Scanner(1, Char('a'), Char('"'), Marker, Undefined, "\"", DoubleQuoted, None, [])
  {
    assert Closes(text, Init(text));
  }

  lemma EscapedQuoteStep2(text: string)
    requires |text| == 6 && text[0] == '"' && text[1] == 'a' && text[2] == '\\' && text[3] == '"' && text[4] == 'b'
    ensures Sane(text, Scanner(1, Char('a'), Char('"'), Marker, Undefined, "\"", DoubleQuoted, None, [])) && Running(Scanner(1, Char('a'), Char('"'), Marker, Undefined, "\"", DoubleQuoted, None, []))
    ensures Advance(text, Scanner(1, Char('a'), Char('"'), Marker, Undefined, "\"", DoubleQuoted, None, [])) == Scanner(2, Char('\\'), Char('a'), Char('"'), Marker, "\"a", DoubleQuoted, None, [])
  {
    assert !Closes(text, Scanner(1, Char('a'), Char('"'), Marker, Undefined, "\"", DoubleQuoted, None, []));
  }

  lemma EscapedQuoteStep3(text: string)
    requires |text| == 6 && text[0] == '"' && text[1] == 'a' && text[2] == '\\' && text[3] == '"' && text[4] == 'b' && text[5] == '"'
    ensures Sane(text, Scanner(2, Char('\\'), Char('a'), Char('"'), Marker, "\"a", DoubleQuoted, None, [])) && Running(Scanner(2, Char('\\'), Char('a'), Char('"'), Marker, "\"a", DoubleQuoted, None, []))
    ensures Advance(text, Scanner(2, Char('\\'), Char('a'), Char('"'), Marker, "\"a", DoubleQuoted, None, [])) == Scanner(3, Char('"'), Char('\\'), Char('a'), Char('"'), "\"a\\", DoubleQuoted, None, [])
  {
    assert !Closes(text, Scanner(2, Char('\\'), Char('a'), Char('"'), Marker, "\"a", DoubleQuoted, None, []));
  }

  lemma EscapedQuoteStep4(text: string)
    requires |text| == 6 && text[0] == '"' && text[1] == 'a' && text[2] == '\\' && text[3] == '"' && text[4] == 'b' && text[5] == '"'
    ensures Sane(text, Scanner(3, Char('"'), Char('\\'), Char('a'), Char('"'), "\"a\\", DoubleQuoted, None, [])) && Running(Scanner(3, Char('"'), Char('\\'), Char('a'), Char('"'), "\"a\\", DoubleQuoted, None, []))
    ensures Advance(text, Scanner(3, Char('"'), Char('\\'), Char('a'), Char('"'), "\"a\\", DoubleQuoted, None, [])) == Scanner(4, Char('b'), Char('"'), Char('\\'), Char('a'), "\"a\\\"", DoubleQuoted, None, [])
  {
    assert !Closes(text, Scanner(3, Char('"'), Char('\\'), Char('a'), Char('"'), "\"a\\", DoubleQuoted, None, []));
  }

  lemma EscapedQuoteStep5(text: string)
    requires |text| == 6 && text[1] == 'a' && text[2] == '\\' && text[3] == '"' && text[4] == 'b' && text[5] == '"'
    ensures Sane(text, Scanner(4, Char('b'), Char('"'), Char('\\'), Char('a'), "\"a\\\"", DoubleQuoted, None, [])) && Running(Scanner(4, Char('b'), Char('"'), Char('\\'), Char('a'), "\"a\\\"", DoubleQuoted, None, []))
    ensures Advance(text, Scanner(4, Char('b'), Char('"'), Char('\\'), Char('a'), "\"a\\\"", DoubleQuoted, None, [])) == Scanner(5, Char('"'), Char('b'), Marker, Char('\\'), "\"a\\\"b", DoubleQuoted, None, [])
  {
    assert !Closes(text, Scanner(4, Char('b'), Char('"'), Char('\\'), Char('a'), "\"a\\\"", DoubleQuoted, None, []));
  }

  lemma EscapedQuoteStep6(text: string)
    requires |text| == 6 && text[2] == '\\' && text[3] == '"' && text[4] == 'b' && text[5] == '"'
    ensures Sane(text, Scanner(5, Char('"'), Char('b'), Marker, Char('\\'), "\"a\\\"b", DoubleQuoted, None, [])) && Running(Scanner(5, Char('"'), Char('b'), Marker, Char('\\'), "\"a\\\"b", DoubleQuoted, None, []))
    ensures Advance(text, Scanner(5, Char('"'), Char('b'), Marker, Char('\\'), "\"a\\\"b", DoubleQuoted, None, [])) == Scanner(6, Undefined, Char('"'), Char('b'), Marker, "\"a\\\"b\"", DoubleQuoted, None, [])
  {
    assert !Closes(text, Scanner(5, Char('"'), Char('b'), Marker, Char('\\'), "\"a\\\"b", DoubleQuoted, None, []));
  }

  lemma EscapedQuoteStep7(text: string)
    requires |text| == 6 && text[3] == '"' && text[4] == 'b' && text[5] == '"'
    ensures Sane(text, Scanner(6, Undefined, Char('"'), Char('b'), Marker, "\"a\\\"b\"", DoubleQuoted, None, [])) && Running(Scanner(6, Undefined, Char('"'), Char('b'), Marker, "\"a\\\"b\"", DoubleQuoted, None, []))
    ensures Advance(text, Scanner(6, Undefined, Char('"'), Char('b'), Marker, "\"a\\\"b\"", DoubleQuoted, None, [])) == Scanner(7, Undefined, Undefined, Char('"'), Char('b'), "undefined", Word, Some(DoubleQuoted), [Token("\"a\\\"b\"", DoubleQuoted)])
    ensures !Running(Scanner(7, Undefined, Undefined, Char('"'), Char('b'), "undefined", Word, Some(DoubleQuoted), [Token("\"a\\\"b\"", DoubleQuoted)]))
  {
    assert Closes(text, Scanner(6, Undefined, Char('"'), Char('b'), Marker, "\"a\\\"b\"", DoubleQuoted, None, []));
  }

  // A hash comment ends before the newline, which starts a white-space token.
  lemma HashCommentEndsAtNewline()
    ensures Tokens("#a\nb") == [Token("#a", HashComment), Token("\n", Neutral), Token("b", Word)]
  {
    var text := "#a\nb";
    HashCommentEndsAtNewlineText1();
    HashCommentEndsAtNewlineRun1(text);
  }

  lemma HashCommentEndsAtNewlineText1()
    ensures var text := "#a\nb";
            |text| == 4 && text[0] == '#' && text[1] == 'a' && text[2] == '\n' && text[3] == 'b'
  {
  }

  lemma HashCommentEndsAtNewlineRun1(text: string)
    requires |text| == 4 && text[0] == '#' && text[1] == 'a' && text[2] == '\n' && text[3] == 'b'
    ensures Run(text, Init(text)) == Scanner(5, Undefined, Undefined, Char('b'), Char('\n'), "undefined", Word, Some(Word), [Token("#a", HashComment), Token("\n", Neutral), Token("b", Word)])
  {
    var s0 := Init(text);
    var s1 := Scanner(1, Char('a'), Char('#'), Marker, Undefined, "#", HashComment, None, []);
    var s2 := Scanner(2, Char('\n'), Char('a'), Char('#'), Marker, "#a", HashComment, None, []);
    var s3 := Scanner(3, Char('b'), Char('\n'), Char('a'), Char('#'), "\n", Neutral, None, [Token("#a", HashComment)]);
    var s4 := Scanner(4, Undefined, Char('b'), Char('\n'), Char('a'), "b", Word, None, [Token("#a", HashComment), Token("\n", Neutral)]);
    var s5 := Scanner(5, Undefined, Undefined, Char('b'), Char('\n'), "undefined", Word, Some(Word), [Token("#a", HashComment), Token("\n", Neutral), Token("b", Word)]);
    HashCommentEndsAtNewlineStep1(text);
    RunStep(text, s0);
    HashCommentEndsAtNewlineStep2(text);
    RunStep(text, s1);
    HashCommentEndsAtNewlineStep3(text);
    RunStep(text, s2);
    HashCommentEndsAtNewlineStep4(text);
    RunStep(text, s3);
    HashCommentEndsAtNewlineStep5(text);
    RunStep(text, s4);
  }

  lemma HashCommentEndsAtNewlineStep1(text: string)
    requires |text| == 4 && text[0] == '#' && text[1] == 'a' && text[2] == '\n' && text[3] == 'b'
    ensures Sane(text, Init(text)) && Running(Init(text))
    ensures Advance(text, Init(text)) == Scanner(1, Char('a'), Char('#'), Marker, Undefined, "#", HashComment, None, [])
  {
    assert Closes(text, Init(text));
  }

  lemma HashCommentEndsAtNewlineStep2(text: string)
    requires |text| == 4 && text[0] == '#' && text[1] == 'a' && text[2] == '\n' && text[3] == 'b'
    ensures Sane(text, Scanner(1, Char('a'), Char('#'), Marker, Undefined, "#", HashComment, None, [])) && Running(Scanner(1, Char('a'), Char('#'), Marker, Undefined, "#", HashComment, None, []))
    ensures Advance(text, Scanner(1, Char('a'), Char('#'), Marker, Undefined, "#", HashComment, None, [])) == Scanner(2, Char('\n'), Char('a'), Char('#'), Marker, "#a", HashComment, None, [])
  {
    assert !Closes(text, Scanner(1, Char('a'), Char('#'), Marker, Undefined, "#", HashComment, None, []));
  }

  lemma HashCommentEndsAtNewlineStep3(text: string)
    requires |text| == 4 && text[0] == '#' && text[1] == 'a' && text[2] == '\n' && text[3] == 'b'
    ensures Sane(text, Scanner(2, Char('\n'), Char('a'), Char('#'), Marker, "#a", HashComment, None, [])) && Running(Scanner(2, Char('\n'), Char('a'), Char('#'), Marker, "#a", HashComment, None, []))
    ensures Advance(text, Scanner(2, Char('\n'), Char('a'), Char('#'), Marker, "#a", HashComment, None, [])) == Scanner(3, Char('b'), Char('\n'), Char('a'), Char('#'), "\n", Neutral, None, [Token("#a", HashComment)])
  {
    assert Closes(text, Scanner(2, Char('\n'), Char('a'), Char('#'), Marker, "#a", HashComment, None, []));
  }

  lemma HashCommentEndsAtNewlineStep4(text: string)
    requires |text| == 4 && text[0] == '#' && text[1] == 'a' && text[2] == '\n' && text[3] == 'b'
    ensures Sane(text, Scanner(3, Char('b'), Char('\n'), Char('a'), Char('#'), "\n", Neutral, None, [Token("#a", HashComment)])) && Running(Scanner(3, Char('b'), Char('\n'), Char('a'), Char('#'), "\n", Neutral, None, [Token("#a", HashComment)]))
    ensures Advance(text, Scanner(3, Char('b'), Char('\n'), Char('a'), Char('#'), "\n", Neutral, None, [Token("#a", HashComment)])) == Scanner(4, Undefined, Char('b'), Char('\n'), Char('a'), "b", Word, None, [Token("#a", HashComment), Token("\n", Neutral)])
  {
    assert Closes(text, Scanner(3, Char('b'), Char('\n'), Char('a'), Char('#'), "\n", Neutral, None, [Token("#a", HashComment)]));
  }

  lemma HashCommentEndsAtNewlineStep5(text: string)
    requires |text| == 4 && text[1] == 'a' && text[2] == '\n' && text[3] == 'b'
    ensures Sane(text, Scanner(4, Undefined, Char('b'), Char('\n'), Char('a'), "b", Word, None, [Token("#a", HashComment), Token("\n", Neutral)])) && Running(Scanner(4, Undefined, Char('b'), Char('\n'), Char('a'), "b", Word, None, [Token("#a", HashComment), Token("\n", Neutral)]))
    ensures Advance(text, Scanner(4, Undefined, Char('b'), Char('\n'), Char('a'), "b", Word, None, [Token("#a", HashComment), Token("\n", Neutral)])) == Scanner(5, Undefined, Undefined, Char('b'), Char('\n'), "undefined", Word, Some(Word), [Token("#a", HashComment), Token("\n", Neutral), Token("b", Word)])
    ensures !Running(Scanner(5, Undefined, Undefined, Char('b'), Char('\n'), "undefined", Word, Some(Word), [Token("#a", HashComment), Token("\n", Neutral), Token("b", Word)]))
  {
    assert Closes(text, Scanner(4, Undefined, Char('b'), Char('\n'), Char('a'), "b", Word, None, [Token("#a", HashComment), Token("\n", Neutral)]));
  }

  // A block comment runs to its closing `*/`.
  lemma BlockCommentRun()
    ensures Tokens("a /* c */ b") == [Token("a", Word), Token(" ", Neutral), Token("/* c */", BlockComment), Token(" ", Neutral), Token("b", Word)]
  {
    var text := "a /* c */ b";
    BlockCommentRunText1();
    BlockCommentRunText2();
    BlockCommentRunRun1(text);
    BlockCommentRunRun2(text);
  }

  lemma BlockCommentRunText1()
    ensures var text := "a /* c */ b";
            |text| == 11 && text[0] == 'a' && text[1] == ' ' && text[2] == '/' && text[3] == '*' && text[4] == ' ' && text[5] == 'c' && text[6] == ' ' && text[7] == '*'
  {
  }

  lemma BlockCommentRunText2()
    ensures var text := "a /* c */ b";
            |text| == 11 && text[8] == '/' && text[9] == ' ' && text[10] == 'b'
  {
  }

  lemma BlockCommentRunRun1(text: string)
    requires |text| == 11 && text[0] == 'a' && text[1] == ' ' && text[2] == '/' && text[3] == '*' && text[4] == ' ' && text[5] == 'c' && text[6] == ' ' && text[7] == '*' && text[8] == '/'
    ensures Run(text, Init(text)) == Run(text, Scanner(6, Char(' '), Char('c'), Char(' '), Char('*'), "/* c", BlockComment, Some(Word), [Token("a", Word), Token(" ", Neutral)]))
  {
    var s0 := Init(text);
    var s1 := Scanner(1, Char(' '), Char('a'), Marker, Undefined, "a", Word, None, []);
    var s2 := Scanner(2, Char('/'), Char(' '), Char('a'), Marker, " ", Neutral, Some(Word), [Token("a", Word)]);
    var s3 := Scanner(3, Char('*'), Char('/'), Char(' '), Char('a'), "/", BlockComment, Some(Word), [Token("a", Word), Token(" ", Neutral)]);
    var s4 := Scanner(4, Char(' '), Char('*'), Char('/'), Char(' '), "/*", BlockComment, Some(Word), [Token("a", Word), Token(" ", Neutral)]);
    var s5 := Scanner(5, Char('c'), Char(' '), Char('*'), Char('/'), "/* ", BlockComment, Some(Word), [Token("a", Word), Token(" ", Neutral)]);
    var s6 := Scanner(6, Char(' '), Char('c'), Char(' '), Char('*'), "/* c", BlockComment, Some(Word), [Token("a", Word), Token(" ", Neutral)]);
    BlockCommentRunStep1(text);
    RunStep(text, s0);
    BlockCommentRunStep2(text);
    RunStep(text, s1);
    BlockCommentRunStep3(text);
    RunStep(text, s2);
    BlockCommentRunStep4(text);
    RunStep(text, s3);
    BlockCommentRunStep5(text);
    RunStep(text, s4);
    BlockCommentRunStep6(text);
    RunStep(text, s5);
  }

  lemma BlockCommentRunRun2(text: string)
    requires |text| == 11 && text[3] == '*' && text[4] == ' ' && text[5] == 'c' && text[6] == ' ' && text[7] == '*' && text[8] == '/' && text[9] == ' ' && text[10] == 'b'
    ensures Run(text, Scanner(6, Char(' '), Char('c'), Char(' '), Char('*'), "/* c", BlockComment, Some(Word), [Token("a", Word), Token(" ", Neutral)])) == Scanner(12, Undefined, Undefined, Char('b'), Char(' '), "undefined", Word, Some(Word), [Token("a", Word), Token(" ", Neutral), Token("/* c */", BlockComment), Token(" ", Neutral), Token("b", Word)])
  {
    var s6 := Scanner(6, Char(' '), Char('c'), Char(' '), Char('*'), "/* c", BlockComment, Some(Word), [Token("a", Word), Token(" ", Neutral)]);
    var s7 := Scanner(7, Char('*'), Char(' '), Char('c'), Char(' '), "/* c ", BlockComment, Some(Word), [Token("a", Word), Token(" ", Neutral)]);
    var s8 := Scanner(8, Char('/'), Char('*'), Char(' '), Char('c'), "/* c *", BlockComment, Some(Word), [Token("a", Word), Token(" ", Neutral)]);
    var s9 := Scanner(9, Char(' '), Char('/'), Char('*'), Char(' '), "/* c */", BlockComment, Some(Word), [Token("a", Word), Token(" ", Neutral)]);
    var s10 := Scanner(10, Char('b'), Char(' '), Char('/'), Char('*'), " ", Neutral, Some(Word), [Token("a", Word), Token(" ", Neutral), Token("/* c */", BlockComment)]);
    var s11 := Scanner(11, Undefined, Char('b'), Char(' '), Char('/'), "b", Word, Some(Word), [Token("a", Word), Token(" ", Neutral), Token("/* c */", BlockComment), Token(" ", Neutral)]);
    var s12 := Scanner(12, Undefined, Undefined, Char('b'), Char(' '), "undefined", Word, Some(Word), [Token("a", Word), Token(" ", Neutral), Token("/* c */", BlockComment), Token(" ", Neutral), Token("b", Word)]);
    BlockCommentRunStep7(text);
    RunStep(text, s6);
    BlockCommentRunStep8(text);
    RunStep(text, s7);
    BlockCommentRunStep9(text);
    RunStep(text, s8);
    BlockCommentRunStep10(text);
    RunStep(text, s9);
    BlockCommentRunStep11(text);
    RunStep(text, s10);
    BlockCommentRunStep12(text);
    RunStep(text, s11);
  }

  lemma BlockCommentRunStep1(text: string)
    requires |text| == 11 && text[0] == 'a' && text[1] == ' ' && text[2] == '/' && text[3] == '*'
    ensures Sane(text, Init(text)) && Running(Init(text))
    ensures Advance(text, Init(text)) == Scanner(1, Char(' '), Char('a'), Marker, Undefined, "a", Word, None, [])
  {
    assert Closes(text, Init(text));
  }

  lemma BlockCommentRunStep2(text: string)
    requires |text| == 11 && text[0] == 'a' && text[1] == ' ' && text[2] == '/' && text[3] == '*' && text[4] == ' '
    ensures Sane(text, Scanner(1, Char(' '), Char('a'), Marker, Undefined, "a", Word, None, [])) && Running(Scanner(1, Char(' '), Char('a'), Marker, Undefined, "a", Word, None, []))
    ensures Advance(text, Scanner(1, Char(' '), Char('a'), Marker, Undefined, "a", Word, None, [])) == Scanner(2, Char('/'), Char(' '), Char('a'), Marker, " ", Neutral, Some(Word), [Token("a", Word)])
  {
    assert Closes(text, Scanner(1, Char(' '), Char('a'), Marker, Undefined, "a", Word, None, []));
  }

  lemma BlockCommentRunStep3(text: string)
    requires |text| == 11 && text[0] == 'a' && text[1] == ' ' && text[2] == '/' && text[3] == '*' && text[4] == ' ' && text[5] == 'c'
    ensures Sane(text, Scanner(2, Char('/'), Char(' '), Char('a'), Marker, " ", Neutral, Some(Word), [Token("a", Word)])) && Running(Scanner(2, Char('/'), Char(' '), Char('a'), Marker, " ", Neutral, Some(Word), [Token("a", Word)]))
    ensures Advance(text, Scanner(2, Char('/'), Char(' '), Char('a'), Marker, " ", Neutral, Some(Word), [Token("a", Word)])) == Scanner(3, Char('*'), Char('/'), Char(' '), Char('a'), "/", BlockComment, Some(Word), [Token("a", Word), Token(" ", Neutral)])
  {
    assert Closes(text, Scanner(2, Char('/'), Char(' '), Char('a'), Marker, " ", Neutral, Some(Word), [Token("a", Word)]));
  }

  lemma BlockCommentRunStep4(text: string)
    requires |text| == 11 && text[0] == 'a' && text[1] == ' ' && text[2] == '/' && text[3] == '*' && text[4] == ' ' && text[5] == 'c' && text[6] == ' '
    ensures Sane(text, Scanner(3, Char('*'), Char('/'), Char(' '), Char('a'), "/", BlockComment, Some(Word), [Token("a", Word), Token(" ", Neutral)])) && Running(Scanner(3, Char('*'), Char('/'), Char(' '), Char('a'), "/", BlockComment, Some(Word), [Token("a", Word), Token(" ", Neutral)]))
    ensures Advance(text, Scanner(3, Char('*'), Char('/'), Char(' '), Char('a'), "/", BlockComment, Some(Word), [Token("a", Word), Token(" ", Neutral)])) == Scanner(4, Char(' '), Char('*'), Char('/'), Char(' '), "/*", BlockComment, Some(Word), [Token("a", Word), Token(" ", Neutral)])
  {
    assert !Closes(text, Scanner(3, Char('*'), Char('/'), Char(' '), Char('a'), "/", BlockComment, Some(Word), [Token("a", Word), Token(" ", Neutral)]));
  }

  lemma BlockCommentRunStep5(text: string)
    requires |text| == 11 && text[1] == ' ' && text[2] == '/' && text[3] == '*' && text[4] == ' ' && text[5] == 'c' && text[6] == ' ' && text[7] == '*'
    ensures Sane(text, Scanner(4, Char(' '), Char('*'), Char('/'), Char(' '), "/*", BlockComment, Some(Word), [Token("a", Word), Token(" ", Neutral)])) && Running(Scanner(4, Char(' '), Char('*'), Char('/'), Char(' '), "/*", BlockComment, Some(Word), [Token("a", Word), Token(" ", Neutral)]))
    ensures Advance(text, Scanner(4, Char(' '), Char('*'), Char('/'), Char(' '), "/*", BlockComment, Some(Word), [Token("a", Word), Token(" ", Neutral)])) == Scanner(5, Char('c'), Char(' '), Char('*'), Char('/'), "/* ", BlockComment, Some(Word), [Token("a", Word), Token(" ", Neutral)])
  {
    assert !Closes(text, Scanner(4, Char(' '), Char('*'), Char('/'), Char(' '), "/*", BlockComment, Some(Word), [Token("a", Word), Token(" ", Neutral)]));
  }

  lemma BlockCommentRunStep6(text: string)
    requires |text| == 11 && text[2] == '/' && text[3] == '*' && text[4] == ' ' && text[5] == 'c' && text[6] == ' ' && text[7] == '*' && text[8] == '/'
    ensures Sane(text, Scanner(5, Char('c'), Char(' '), Char('*'), Char('/'), "/* ", BlockComment, Some(Word), [Token("a", Word), Token(" ", Neutral)])) && Running(Scanner(5, Char('c'), Char(' '), Char('*'), Char('/'), "/* ", BlockComment, Some(Word), [Token("a", Word), Token(" ", Neutral)]))
    ensures Advance(text, Scanner(5, Char('c'), Char(' '), Char('*'), Char('/'), "/* ", BlockComment, Some(Word), [Token("a", Word), Token(" ", Neutral)])) == Scanner(6, Char(' '), Char('c'), Char(' '), Char('*'), "/* c", BlockComment, Some(Word), [Token("a", Word), Token(" ", Neutral)])
  {
    assert !Closes(text, Scanner(5, Char('c'), Char(' '), Char('*'), Char('/'), "/* ", BlockComment, Some(Word), [Token("a", Word), Token(" ", Neutral)]));
  }

  lemma BlockCommentRunStep7(text: string)
    requires |text| == 11 && text[3] == '*' && text[4] == ' ' && text[5] == 'c' && text[6] == ' ' && text[7] == '*' && text[8] == '/' && text[9] == ' '
    ensures Sane(text, Scanner(6, Char(' '), Char('c'), Char(' '), Char('*'), "/* c", BlockComment, Some(Word), [Token("a", Word), Token(" ", Neutral)])) && Running(Scanner(6, Char(' '), Char('c'), Char(' '), Char('*'), "/* c", BlockComment, Some(Word), [Token("a", Word), Token(" ", Neutral)]))
    ensures Advance(text, Scanner(6, Char(' '), Char('c'), Char(' '), Char('*'), "/* c", BlockComment, Some(Word), [Token("a", Word), Token(" ", Neutral)])) == Scanner(7, Char('*'), Char(' '), Char('c'), Char(' '), "/* c ", BlockComment, Some(Word), [Token("a", Word), Token(" ", Neutral)])
  {
    assert !Closes(text, Scanner(6, Char(' '), Char('c'), Char(' '), Char('*'), "/* c", BlockComment, Some(Word), [Token("a", Word), Token(" ", Neutral)]));
  }

  lemma BlockCommentRunStep8(text: string)
    requires |text| == 11 && text[4] == ' ' && text[5] == 'c' && text[6] == ' ' && text[7] == '*' && text[8] == '/' && text[9] == ' ' && text[10] == 'b'
    ensures Sane(text, Scanner(7, Char('*'), Char(' '), Char('c'), Char(' '), "/* c ", BlockComment, Some(Word), [Token("a", Word), Token(" ", Neutral)])) && Running(Scanner(7, Char('*'), Char(' '), Char('c'), Char(' '), "/* c ", BlockComment, Some(Word), [Token("a", Word), Token(" ", Neutral)]))
    ensures Advance(text, Scanner(7, Char('*'), Char(' '), Char('c'), Char(' '), "/* c ", BlockComment, Some(Word), [Token("a", Word), Token(" ", Neutral)])) == Scanner(8, Char('/'), Char('*'), Char(' '), Char('c'), "/* c *", BlockComment, Some(Word), [Token("a", Word), Token(" ", Neutral)])
  {
    assert !Closes(text, Scanner(7, Char('*'), Char(' '), Char('c'), Char(' '), "/* c ", BlockComment, Some(Word), [Token("a", Word), Token(" ", Neutral)]));
  }

  lemma BlockCommentRunStep9(text: string)
    requires |text| == 11 && text[5] == 'c' && text[6] == ' ' && text[7] == '*' && text[8] == '/' && text[9] == ' ' && text[10] == 'b'
    ensures Sane(text, Scanner(8, Char('/'), Char('*'), Char(' '), Char('c'), "/* c *", BlockComment, Some(Word), [Token("a", Word), Token(" ", Neutral)])) && Running(Scanner(8, Char('/'), Char('*'), Char(' '), Char('c'), "/* c *", BlockComment, Some(Word), [Token("a", Word), Token(" ", Neutral)]))
    ensures Advance(text, Scanner(8, Char('/'), Char('*'), Char(' '), Char('c'), "/* c *", BlockComment, Some(Word), [Token("a", Word), Token(" ", Neutral)])) == Scanner(9, Char(' '), Char('/'), Char('*'), Char(' '), "/* c */", BlockComment, Some(Word), [Token("a", Word), Token(" ", Neutral)])
  {
    assert !Closes(text, Scanner(8, Char('/'), Char('*'), Char(' '), Char('c'), "/* c *", BlockComment, Some(Word), [Token("a", Word), Token(" ", Neutral)]));
  }

  lemma BlockCommentRunStep10(text: string)
    requires |text| == 11 && text[6] == ' ' && text[7] == '*' && text[8] == '/' && text[9] == ' ' && text[10] == 'b'
    ensures Sane(text, Scanner(9, Char(' '), Char('/'), Char('*'), Char(' '), "/* c */", BlockComment, Some(Word), [Token("a", Word), Token(" ", Neutral)])) && Running(Scanner(9, Char(' '), Char('/'), Char('*'), Char(' '), "/* c */", BlockComment, Some(Word), [Token("a", Word), Token(" ", Neutral)]))
    ensures Advance(text, Scanner(9, Char(' '), Char('/'), Char('*'), Char(' '), "/* c */", BlockComment, Some(Word), [Token("a", Word), Token(" ", Neutral)])) == Scanner(10, Char('b'), Char(' '), Char('/'), Char('*'), " ", Neutral, Some(Word), [Token("a", Word), Token(" ", Neutral), Token("/* c */", BlockComment)])
  {
    assert Closes(text, Scanner(9, Char(' '), Char('/'), Char('*'), Char(' '), "/* c */", BlockComment, Some(Word), [Token("a", Word), Token(" ", Neutral)]));
  }

  lemma BlockCommentRunStep11(text: string)
    requires |text| == 11 && text[7] == '*' && text[8] == '/' && text[9] == ' ' && text[10] == 'b'
    ensures Sane(text, Scanner(10, Char('b'), Char(' '), Char('/'), Char('*'), " ", Neutral, Some(Word), [Token("a", Word), Token(" ", Neutral), Token("/* c */", BlockComment)])) && Running(Scanner(10, Char('b'), Char(' '), Char('/'), Char('*'), " ", Neutral, Some(Word), [Token("a", Word), Token(" ", Neutral), Token("/* c */", BlockComment)]))
    ensures Advance(text, Scanner(10, Char('b'), Char(' '), Char('/'), Char('*'), " ", Neutral, Some(Word), [Token("a", Word), Token(" ", Neutral), Token("/* c */", BlockComment)])) == Scanner(11, Undefined, Char('b'), Char(' '), Char('/'), "b", Word, Some(Word), [Token("a", Word), Token(" ", Neutral), Token("/* c */", BlockComment), Token(" ", Neutral)])
  {
    assert Closes(text, Scanner(10, Char('b'), Char(' '), Char('/'), Char('*'), " ", Neutral, Some(Word), [Token("a", Word), Token(" ", Neutral), Token("/* c */", BlockComment)]));
  }

  lemma BlockCommentRunStep12(text: string)
    requires |text| == 11 && text[8] == '/' && text[9] == ' ' && text[10] == 'b'
    ensures Sane(text, Scanner(11, Undefined, Char('b'), Char(' '), Char('/'), "b", Word, Some(Word), [Token("a", Word), Token(" ", Neutral), Token("/* c */", BlockComment), Token(" ", Neutral)])) && Running(Scanner(11, Undefined, Char('b'), Char(' '), Char('/'), "b", Word, Some(Word), [Token("a", Word), Token(" ", Neutral), Token("/* c */", BlockComment), Token(" ", Neutral)]))
    ensures Advance(text, Scanner(11, Undefined, Char('b'), Char(' '), Char('/'), "b", Word, Some(Word), [Token("a", Word), Token(" ", Neutral), Token("/* c */", BlockComment), Token(" ", Neutral)])) == Scanner(12, Undefined, Undefined, Char('b'), Char(' '), "undefined", Word, Some(Word), [Token("a", Word), Token(" ", Neutral), Token("/* c */", BlockComment), Token(" ", Neutral), Token("b", Word)])
    ensures !Running(Scanner(12, Undefined, Undefined, Char('b'), Char(' '), "undefined", Word, Some(Word), [Token("a", Word), Token(" ", Neutral), Token("/* c */", BlockComment), Token(" ", Neutral), Token("b", Word)]))
  {
    assert Closes(text, Scanner(11, Undefined, Char('b'), Char(' '), Char('/'), "b", Word, Some(Word), [Token("a", Word), Token(" ", Neutral), Token("/* c */", BlockComment), Token(" ", Neutral)]));
  }

  // A slash right after an unescaped `<` is an operator, not a regex.
  lemma SlashAfterClosingTagOpener()
    ensures Tokens("</a>") == [Token("<", Operator), Token("/", Operator), Token("a", Word), Token(">", Operator)]
  {
    var text := "</a>";
    SlashAfterClosingTagOpenerText1();
    SlashAfterClosingTagOpenerRun1(text);
  }

  lemma SlashAfterClosingTagOpenerText1()
    ensures var text := "</a>";
            |text| == 4 && text[0] == '<' && text[1] == '/' && text[2] == 'a' && text[3] == '>'
  {
  }

  lemma SlashAfterClosingTagOpenerRun1(text: string)
    requires |text| == 4 && text[0] == '<' && text[1] == '/' && text[2] == 'a' && text[3] == '>'
    ensures Run(text, Init(text)) == Scanner(5, Undefined, Undefined, Char('>'), Char('a'), "undefined", Word, Some(Operator), [Token("<", Operator), Token("/", Operator), Token("a", Word), Token(">", Operator)])
  {
    var s0 := Init(text);
    var s1 := Scanner(1, Char('/'), Char('<'), Marker, Undefined, "<", Operator, None, []);
    var s2 := Scanner(2, Char('a'), Char('/'), Char('<'), Marker, "/", Operator, Some(Operator), [Token("<", Operator)]);
    var s3 := Scanner(3, Char('>'), Char('a'), Char('/'), Char('<'), "a", Word, Some(Operator), [Token("<", Operator), Token("/", Operator)]);
    var s4 := Scanner(4, Undefined, Char('>'), Char('a'), Char('/'), ">", Operator, Some(Word), [Token("<", Operator), Token("/", Operator), Token("a", Word)]);
    var s5 := Scanner(5, Undefined, Undefined, Char('>'), Char('a'), "undefined", Word, Some(Operator), [Token("<", Operator), Token("/", Operator), Token("a", Word), Token(">", Operator)]);
    SlashAfterClosingTagOpenerStep1(text);
    RunStep(text, s0);
    SlashAfterClosingTagOpenerStep2(text);
    RunStep(text, s1);
    SlashAfterClosingTagOpenerStep3(text);
    RunStep(text, s2);
    SlashAfterClosingTagOpenerStep4(text);
    RunStep(text, s3);
    SlashAfterClosingTagOpenerStep5(text);
    RunStep(text, s4);
  }

  lemma SlashAfterClosingTagOpenerStep1(text: string)
    requires |text| == 4 && text[0] == '<' && text[1] == '/' && text[2] == 'a' && text[3] == '>'
    ensures Sane(text, Init(text)) && Running(Init(text))
    ensures Advance(text, Init(text)) == Scanner(1, Char('/'), Char('<'), Marker, Undefined, "<", Operator, None, [])
  {
    assert Closes(text, Init(text));
  }

  lemma SlashAfterClosingTagOpenerStep2(text: string)
    requires |text| == 4 && text[0] == '<' && text[1] == '/' && text[2] == 'a' && text[3] == '>'
    ensures Sane(text, Scanner(1, Char('/'), Char('<'), Marker, Undefined, "<", Operator, None, [])) && Running(Scanner(1, Char('/'), Char('<'), Marker, Undefined, "<", Operator, None, []))
    ensures Advance(text, Scanner(1, Char('/'), Char('<'), Marker, Undefined, "<", Operator, None, [])) == Scanner(2, Char('a'), Char('/'), Char('<'), Marker, "/", Operator, Some(Operator), [Token("<", Operator)])
  {
    assert Closes(text, Scanner(1, Char('/'), Char('<'), Marker, Undefined, "<", Operator, None, []));
  }

  lemma SlashAfterClosingTagOpenerStep3(text: string)
    requires |text| == 4 && text[0] == '<' && text[1] == '/' && text[2] == 'a' && text[3] == '>'
    ensures Sane(text, Scanner(2, Char('a'), Char('/'), Char('<'), Marker, "/", Operator, Some(Operator), [Token("<", Operator)])) && Running(Scanner(2, Char('a'), Char('/'), Char('<'), Marker, "/", Operator, Some(Operator), [Token("<", Operator)]))
    ensures Advance(text, Scanner(2, Char('a'), Char('/'), Char('<'), Marker, "/", Operator, Some(Operator), [Token("<", Operator)])) == Scanner(3, Char('>'), Char('a'), Char('/'), Char('<'), "a", Word, Some(Operator), [Token("<", Operator), Token("/", Operator)])
  {
    assert Closes(text, Scanner(2, Char('a'), Char('/'), Char('<'), Marker, "/", Operator, Some(Operator), [Token("<", Operator)]));
  }

  lemma SlashAfterClosingTagOpenerStep4(text: string)
    requires |text| == 4 && text[0] == '<' && text[1] == '/' && text[2] == 'a' && text[3] == '>'
    ensures Sane(text, Scanner(3, Char('>'), Char('a'), Char('/'), Char('<'), "a", Word, Some(Operator), [Token("<", Operator), Token("/", Operator)])) && Running(Scanner(3, Char('>'), Char('a'), Char('/'), Char('<'), "a", Word, Some(Operator), [Token("<", Operator), Token("/", Operator)]))
    ensures Advance(text, Scanner(3, Char('>'), Char('a'), Char('/'), Char('<'), "a", Word, Some(Operator), [Token("<", Operator), Token("/", Operator)])) == Scanner(4, Undefined, Char('>'), Char('a'), Char('/'), ">", Operator, Some(Word), [Token("<", Operator), Token("/", Operator), Token("a", Word)])
  {
    assert Closes(text, Scanner(3, Char('>'), Char('a'), Char('/'), Char('<'), "a", Word, Some(Operator), [Token("<", Operator), Token("/", Operator)]));
  }

  lemma SlashAfterClosingTagOpenerStep5(text: string)
    requires |text| == 4 && text[1] == '/' && text[2] == 'a' && text[3] == '>'
    ensures Sane(text, Scanner(4, Undefined, Char('>'), Char('a'), Char('/'), ">", Operator, Some(Word), [Token("<", Operator), Token("/", Operator), Token("a", Word)])) && Running(Scanner(4, Undefined, Char('>'), Char('a'), Char('/'), ">", Operator, Some(Word), [Token("<", Operator), Token("/", Operator), Token("a", Word)]))
    ensures Advance(text, Scanner(4, Undefined, Char('>'), Char('a'), Char('/'), ">", Operator, Some(Word), [Token("<", Operator), Token("/", Operator), Token("a", Word)])) == Scanner(5, Undefined, Undefined, Char('>'), Char('a'), "undefined", Word, Some(Operator), [Token("<", Operator), Token("/", Operator), Token("a", Word), Token(">", Operator)])
    ensures !Running(Scanner(5, Undefined, Undefined, Char('>'), Char('a'), "undefined", Word, Some(Operator), [Token("<", Operator), Token("/", Operator), Token("a", Word), Token(">", Operator)]))
  {
    assert Closes(text, Scanner(4, Undefined, Char('>'), Char('a'), Char('/'), ">", Operator, Some(Word), [Token("<", Operator), Token("/", Operator), Token("a", Word)]));
  }

  // The `<` test reads the masked previous character: after an escaping backslash it is the mask `1`, so a slash right after an escaped `<` opens a regex.
  lemma RegexAfterEscapedAngle()
    ensures Tokens("(\\</a/") == [Token("(", Operator), Token("\\", Operator), Token("<", Operator), Token("/a/", Regex)]
  {
    var text := "(\\</a/";
    RegexAfterEscapedAngleText1();
    RegexAfterEscapedAngleRun1(text);
    RegexAfterEscapedAngleRun2(text);
  }

  lemma RegexAfterEscapedAngleText1()
    ensures var text := "(\\</a/";
            |text| == 6 && text[0] == '(' && text[1] == '\\' && text[2] == '<' && text[3] == '/' && text[4] == 'a' && text[5] == '/'
  {
  }

  lemma RegexAfterEscapedAngleRun1(text: string)
    requires |text| == 6 && text[0] == '(' && text[1] == '\\' && text[2] == '<' && text[3] == '/' && text[4] == 'a' && text[5] == '/'
    ensures Run(text, Init(text)) == Run(text, Scanner(6, Undefined, Char('/'), Char('a'), Char('/'), "/a/", Regex, Some(Operator), [Token("(", Operator), Token("\\", Operator), Token("<", Operator)]))
  {
    var s0 := Init(text);
    var s1 := Scanner(1, Char('\\'), Char('('), Marker, Undefined, "(", Operator, None, []);
    var s2 := Scanner(2, Char('<'), Char('\\'), Char('('), Marker, "\\", Operator, Some(Operator), [Token("(", Operator)]);
    var s3 := Scanner(3, Char('/'), Char('<'), Char('\\'), Char('('), "<", Operator, Some(Operator), [Token("(", Operator), Token("\\", Operator)]);
    var s4 := Scanner(4, Char('a'), Char('/'), Marker, Char('\\'), "/", Regex, Some(Operator), [Token("(", Operator), Token("\\", Operator), Token("<", Operator)]);
    var s5 := Scanner(5, Char('/'), Char('a'), Char('/'), Marker, "/a", Regex, Some(Operator), [Token("(", Operator), Token("\\", Operator), Token("<", Operator)]);
    var s6 := Scanner(6, Undefined, Char('/'), Char('a'), Char('/'), "/a/", Regex, Some(Operator), [Token("(", Operator), Token("\\", Operator), Token("<", Operator)]);
    RegexAfterEscapedAngleStep1(text);
    RunStep(text, s0);
    RegexAfterEscapedAngleStep2(text);
    RunStep(text, s1);
    RegexAfterEscapedAngleStep3(text);
    RunStep(text, s2);
    RegexAfterEscapedAngleStep4(text);
    RunStep(text, s3);
    RegexAfterEscapedAngleStep5(text);
    RunStep(text, s4);
    RegexAfterEscapedAngleStep6(text);
    RunStep(text, s5);
  }

  lemma RegexAfterEscapedAngleRun2(text: string)
    requires |text| == 6 && text[3] == '/' && text[4] == 'a' && text[5] == '/'
    ensures Run(text, Scanner(6, Undefined, Char('/'), Char('a'), Char('/'), "/a/", Regex, Some(Operator), [Token("(", Operator), Token("\\", Operator), Token("<", Operator)])) == Scanner(7, Undefined, Undefined, Char('/'), Char('a'), "undefined", Word, Some(Regex), [Token("(", Operator), Token("\\", Operator), Token("<", Operator), Token("/a/", Regex)])
  {
    var s6 := Scanner(6, Undefined, Char('/'), Char('a'), Char('/'), "/a/", Regex, Some(Operator), [Token("(", Operator), Token("\\", Operator), Token("<", Operator)]);
    var s7 := Scanner(7, Undefined, Undefined, Char('/'), Char('a'), "undefined", Word, Some(Regex), [Token("(", Operator), Token("\\", Operator), Token("<", Operator), Token("/a/", Regex)]);
    RegexAfterEscapedAngleStep7(text);
    RunStep(text, s6);
  }

  lemma RegexAfterEscapedAngleStep1(text: string)
    requires |text| == 6 && text[0] == '(' && text[1] == '\\' && text[2] == '<' && text[3] == '/'
    ensures Sane(text, Init(text)) && Running(Init(text))
    ensures Advance(text, Init(text)) == Scanner(1, Char('\\'), Char('('), Marker, Undefined, "(", Operator, None, [])
  {
    assert Closes(text, Init(text));
  }

  lemma RegexAfterEscapedAngleStep2(text: string)
    requires |text| == 6 && text[0] == '(' && text[1] == '\\' && text[2] == '<' && text[3] == '/' && text[4] == 'a'
    ensures Sane(text, Scanner(1, Char('\\'), Char('('), Marker, Undefined, "(", Operator, None, [])) && Running(Scanner(1, Char('\\'), Char('('), Marker, Undefined, "(", Operator, None, []))
    ensures Advance(text, Scanner(1, Char('\\'), Char('('), Marker, Undefined, "(", Operator, None, [])) == Scanner(2, Char('<'), Char('\\'), Char('('), Marker, "\\", Operator, Some(Operator), [Token("(", Operator)])
  {
    assert Closes(text, Scanner(1, Char('\\'), Char('('), Marker, Undefined, "(", Operator, None, []));
  }

  lemma RegexAfterEscapedAngleStep3(text: string)
    requires |text| == 6 && text[0] == '(' && text[1] == '\\' && text[2] == '<' && text[3] == '/' && text[4] == 'a' && text[5] == '/'
    ensures Sane(text, Scanner(2, Char('<'), Char('\\'), Char('('), Marker, "\\", Operator, Some(Operator), [Token("(", Operator)])) && Running(Scanner(2, Char('<'), Char('\\'), Char('('), Marker, "\\", Operator, Some(Operator), [Token("(", Operator)]))
    ensures Advance(text, Scanner(2, Char('<'), Char('\\'), Char('('), Marker, "\\", Operator, Some(Operator), [Token("(", Operator)])) == Scanner(3, Char('/'), Char('<'), Char('\\'), Char('('), "<", Operator, Some(Operator), [Token("(", Operator), Token("\\", Operator)])
  {
    assert Closes(text, Scanner(2, Char('<'), Char('\\'), Char('('), Marker, "\\", Operator, Some(Operator), [Token("(", Operator)]));
  }

  lemma RegexAfterEscapedAngleStep4(text: string)
    requires |text| == 6 && text[0] == '(' && text[1] == '\\' && text[2] == '<' && text[3] == '/' && text[4] == 'a' && text[5] == '/'
    ensures Sane(text, Scanner(3, Char('/'), Char('<'), Char('\\'), Char('('), "<", Operator, Some(Operator), [Token("(", Operator), Token("\\", Operator)])) && Running(Scanner(3, Char('/'), Char('<'), Char('\\'), Char('('), "<", Operator, Some(Operator), [Token("(", Operator), Token("\\", Operator)]))
    ensures Advance(text, Scanner(3, Char('/'), Char('<'), Char('\\'), Char('('), "<", Operator, Some(Operator), [Token("(", Operator), Token("\\", Operator)])) == Scanner(4, Char('a'), Char('/'), Marker, Char('\\'), "/", Regex, Some(Operator), [Token("(", Operator), Token("\\", Operator), Token("<", Operator)])
  {
    assert Closes(text, Scanner(3, Char('/'), Char('<'), Char('\\'), Char('('), "<", Operator, Some(Operator), [Token("(", Operator), Token("\\", Operator)]));
  }

  lemma RegexAfterEscapedAngleStep5(text: string)
    requires |text| == 6 && text[1] == '\\' && text[2] == '<' && text[3] == '/' && text[4] == 'a' && text[5] == '/'
    ensures Sane(text, Scanner(4, Char('a'), Char('/'), Marker, Char('\\'), "/", Regex, Some(Operator), [Token("(", Operator), Token("\\", Operator), Token("<", Operator)])) && Running(Scanner(4, Char('a'), Char('/'), Marker, Char('\\'), "/", Regex, Some(Operator), [Token("(", Operator), Token("\\", Operator), Token("<", Operator)]))
    ensures Advance(text, Scanner(4, Char('a'), Char('/'), Marker, Char('\\'), "/", Regex, Some(Operator), [Token("(", Operator), Token("\\", Operator), Token("<", Operator)])) == Scanner(5, Char('/'), Char('a'), Char('/'), Marker, "/a", Regex, Some(Operator), [Token("(", Operator), Token("\\", Operator), Token("<", Operator)])
  {
    assert !Closes(text, Scanner(4, Char('a'), Char('/'), Marker, Char('\\'), "/", Regex, Some(Operator), [Token("(", Operator), Token("\\", Operator), Token("<", Operator)]));
  }

  lemma RegexAfterEscapedAngleStep6(text: string)
    requires |text| == 6 && text[2] == '<' && text[3] == '/' && text[4] == 'a' && text[5] == '/'
    ensures Sane(text, Scanner(5, Char('/'), Char('a'), Char('/'), Marker, "/a", Regex, Some(Operator), [Token("(", Operator), Token("\\", Operator), Token("<", Operator)])) && Running(Scanner(5, Char('/'), Char('a'), Char('/'), Marker, "/a", Regex, Some(Operator), [Token("(", Operator), Token("\\", Operator), Token("<", Operator)]))
    ensures Advance(text, Scanner(5, Char('/'), Char('a'), Char('/'), Marker, "/a", Regex, Some(Operator), [Token("(", Operator), Token("\\", Operator), Token("<", Operator)])) == Scanner(6, Undefined, Char('/'), Char('a'), Char('/'), "/a/", Regex, Some(Operator), [Token("(", Operator), Token("\\", Operator), Token("<", Operator)])
  {
    assert !Closes(text, Scanner(5, Char('/'), Char('a'), Char('/'), Marker, "/a", Regex, Some(Operator), [Token("(", Operator), Token("\\", Operator), Token("<", Operator)]));
  }

  lemma RegexAfterEscapedAngleStep7(text: string)
    requires |text| == 6 && text[3] == '/' && text[4] == 'a' && text[5] == '/'
    ensures Sane(text, Scanner(6, Undefined, Char('/'), Char('a'), Char('/'), "/a/", Regex, Some(Operator), [Token("(", Operator), Token("\\", Operator), Token("<", Operator)])) && Running(Scanner(6, Undefined, Char('/'), Char('a'), Char('/'), "/a/", Regex, Some(Operator), [Token("(", Operator), Token("\\", Operator), Token("<", Operator)]))
    ensures Advance(text, Scanner(6, Undefined, Char('/'), Char('a'), Char('/'), "/a/", Regex, Some(Operator), [Token("(", Operator), Token("\\", Operator), Token("<", Operator)])) == Scanner(7, Undefined, Undefined, Char('/'), Char('a'), "undefined", Word, Some(Regex), [Token("(", Operator), Token("\\", Operator), Token("<", Operator), Token("/a/", Regex)])
    ensures !Running(Scanner(7, Undefined, Undefined, Char('/'), Char('a'), "undefined", Word, Some(Regex), [Token("(", Operator), Token("\\", Operator), Token("<", Operator), Token("/a/", Regex)]))
  {
    assert Closes(text, Scanner(6, Undefined, Char('/'), Char('a'), Char('/'), "/a/", Regex, Some(Operator), [Token("(", Operator), Token("\\", Operator), Token("<", Operator)]));
  }

  // An xml comment runs to its closing `-->`.
  lemma XmlCommentRun()
    ensures Tokens("<!--x-->") == [Token("<!--x-->", XmlComment)]
  {
    var text := "<!--x-->";
    XmlCommentRunText1();
    XmlCommentRunRun1(text);
    XmlCommentRunRun2(text);
  }

  lemma XmlCommentRunText1()
    ensures var text := "<!--x-->";
            |text| == 8 && text[0] == '<' && text[1] == '!' && text[2] == '-' && text[3] == '-' && text[4] == 'x' && text[5] == '-' && text[6] == '-' && text[7] == '>'
  {
  }

  lemma XmlCommentRunRun1(text: string)
    requires |text| == 8 && text[0] == '<' && text[1] == '!' && text[2] == '-' && text[3] == '-' && text[4] == 'x' && text[5] == '-' && text[6] == '-' && text[7] == '>'
    ensures Run(text, Init(text)) == Run(text, Scanner(6, Char('-'), Char('-'), Char('x'), Char('-'), "<!--x-", XmlComment, None, []))
  {
    var s0 := Init(text);
    var s1 := Scanner(1, Char('!'), Char('<'), Marker, Undefined, "<", XmlComment, None, []);
    var s2 := Scanner(2, Char('-'), Char('!'), Char('<'), Marker, "<!", XmlComment, None, []);
    var s3 := Scanner(3, Char('-'), Char('-'), Char('!'), Char('<'), "<!-", XmlComment, None, []);
    var s4 := Scanner(4, Char('x'), Char('-'), Char('-'), Char('!'), "<!--", XmlComment, None, []);
    var s5 := Scanner(5, Char('-'), Char('x'), Char('-'), Char('-'), "<!--x", XmlComment, None, []);
    var s6 := Scanner(6, Char('-'), Char('-'), Char('x'), Char('-'), "<!--x-", XmlComment, None, []);
    XmlCommentRunStep1(text);
    RunStep(text, s0);
    XmlCommentRunStep2(text);
    RunStep(text, s1);
    XmlCommentRunStep3(text);
    RunStep(text, s2);
    XmlCommentRunStep4(text);
    RunStep(text, s3);
    XmlCommentRunStep5(text);
    RunStep(text, s4);
    XmlCommentRunStep6(text);
    RunStep(text, s5);
  }

  lemma XmlCommentRunRun2(text: string)
    requires |text| == 8 && text[3] == '-' && text[4] == 'x' && text[5] == '-' && text[6] == '-' && text[7] == '>'
    ensures Run(text, Scanner(6, Char('-'), Char('-'), Char('x'), Char('-'), "<!--x-", XmlComment, None, [])) == Scanner(9, Undefined, Undefined, Char('>'), Char('-'), "undefined", Word, None, [Token("<!--x-->", XmlComment)])
  {
    var s6 := Scanner(6, Char('-'), Char('-'), Char('x'), Char('-'), "<!--x-", XmlComment, None, []);
    var s7 := Scanner(7, Char('>'), Char('-'), Char('-'), Char('x'), "<!--x--", XmlComment, None, []);
    var s8 := Scanner(8, Undefined, Char('>'), Char('-'), Char('-'), "<!--x-->", XmlComment, None, []);
    var s9 := Scanner(9, Undefined, Undefined, Char('>'), Char('-'), "undefined", Word, None, [Token("<!--x-->", XmlComment)]);
    XmlCommentRunStep7(text);
    RunStep(text, s6);
    XmlCommentRunStep8(text);
    RunStep(text, s7);
    XmlCommentRunStep9(text);
    RunStep(text, s8);
  }

  lemma XmlCommentRunStep1(text: string)
    requires |text| == 8 && text[0] == '<' && text[1] == '!' && text[2] == '-' && text[3] == '-'
    ensures Sane(text, Init(text)) && Running(Init(text))
    ensures Advance(text, Init(text)) == Scanner(1, Char('!'), Char('<'), Marker, Undefined, "<", XmlComment, None, [])
  {
    assert Closes(text, Init(text));
  }

  lemma XmlCommentRunStep2(text: string)
    requires |text| == 8 && text[0] == '<' && text[1] == '!' && text[2] == '-' && text[3] == '-' && text[4] == 'x'
    ensures Sane(text, Scanner(1, Char('!'), Char('<'), Marker, Undefined, "<", XmlComment, None, [])) && Running(Scanner(1, Char('!'), Char('<'), Marker, Undefined, "<", XmlComment, None, []))
    ensures Advance(text, Scanner(1, Char('!'), Char('<'), Marker, Undefined, "<", XmlComment, None, [])) == Scanner(2, Char('-'), Char('!'), Char('<'), Marker, "<!", XmlComment, None, [])
  {
    assert !Closes(text, Scanner(1, Char('!'), Char('<'), Marker, Undefined, "<", XmlComment, None, []));
  }

  lemma XmlCommentRunStep3(text: string)
    requires |text| == 8 && text[0] == '<' && text[1] == '!' && text[2] == '-' && text[3] == '-' && text[4] == 'x' && text[5] == '-'
    ensures Sane(text, Scanner(2, Char('-'), Char('!'), Char('<'), Marker, "<!", XmlComment, None, [])) && Running(Scanner(2, Char('-'), Char('!'), Char('<'), Marker, "<!", XmlComment, None, []))
    ensures Advance(text, Scanner(2, Char('-'), Char('!'), Char('<'), Marker, "<!", XmlComment, None, [])) == Scanner(3, Char('-'), Char('-'), Char('!'), Char('<'), "<!-", XmlComment, None, [])
  {
    assert !Closes(text, Scanner(2, Char('-'), Char('!'), Char('<'), Marker, "<!", XmlComment, None, []));
  }

  lemma XmlCommentRunStep4(text: string)
    requires |text| == 8 && text[0] == '<' && text[1] == '!' && text[2] == '-' && text[3] == '-' && text[4] == 'x' && text[5] == '-' && text[6] == '-'
    ensures Sane(text, Scanner(3, Char('-'), Char('-'), Char('!'), Char('<'), "<!-", XmlComment, None, [])) && Running(Scanner(3, Char('-'), Char('-'), Char('!'), Char('<'), "<!-", XmlComment, None, []))
    ensures Advance(text, Scanner(3, Char('-'), Char('-'), Char('!'), Char('<'), "<!-", XmlComment, None, [])) == Scanner(4, Char('x'), Char('-'), Char('-'), Char('!'), "<!--", XmlComment, None, [])
  {
    assert !Closes(text, Scanner(3, Char('-'), Char('-'), Char('!'), Char('<'), "<!-", XmlComment, None, []));
  }

  lemma XmlCommentRunStep5(text: string)
    requires |text| == 8 && text[1] == '!' && text[2] == '-' && text[3] == '-' && text[4] == 'x' && text[5] == '-' && text[6] == '-' && text[7] == '>'
    ensures Sane(text, Scanner(4, Char('x'), Char('-'), Char('-'), Char('!'), "<!--", XmlComment, None, [])) && Running(Scanner(4, Char('x'), Char('-'), Char('-'), Char('!'), "<!--", XmlComment, None, []))
    ensures Advance(text, Scanner(4, Char('x'), Char('-'), Char('-'), Char('!'), "<!--", XmlComment, None, [])) == Scanner(5, Char('-'), Char('x'), Char('-'), Char('-'), "<!--x", XmlComment, None, [])
  {
    assert !Closes(text, Scanner(4, Char('x'), Char('-'), Char('-'), Char('!'), "<!--", XmlComment, None, []));
  }

  lemma XmlCommentRunStep6(text: string)
    requires |text| == 8 && text[2] == '-' && text[3] == '-' && text[4] == 'x' && text[5] == '-' && text[6] == '-' && text[7] == '>'
    ensures Sane(text, Scanner(5, Char('-'), Char('x'), Char('-'), Char('-'), "<!--x", XmlComment, None, [])) && Running(Scanner(5, Char('-'), Char('x'), Char('-'), Char('-'), "<!--x", XmlComment, None, []))
    ensures Advance(text, Scanner(5, Char('-'), Char('x'), Char('-'), Char('-'), "<!--x", XmlComment, None, [])) == Scanner(6, Char('-'), Char('-'), Char('x'), Char('-'), "<!--x-", XmlComment, None, [])
  {
    assert !Closes(text, Scanner(5, Char('-'), Char('x'), Char('-'), Char('-'), "<!--x", XmlComment, None, []));
  }

  lemma XmlCommentRunStep7(text: string)
    requires |text| == 8 && text[3] == '-' && text[4] == 'x' && text[5] == '-' && text[6] == '-' && text[7] == '>'
    ensures Sane(text, Scanner(6, Char('-'), Char('-'), Char('x'), Char('-'), "<!--x-", XmlComment, None, [])) && Running(Scanner(6, Char('-'), Char('-'), Char('x'), Char('-'), "<!--x-", XmlComment, None, []))
    ensures Advance(text, Scanner(6, Char('-'), Char('-'), Char('x'), Char('-'), "<!--x-", XmlComment, None, [])) == Scanner(7, Char('>'), Char('-'), Char('-'), Char('x'), "<!--x--", XmlComment, None, [])
  {
    assert !Closes(text, Scanner(6, Char('-'), Char('-'), Char('x'), Char('-'), "<!--x-", XmlComment, None, []));
  }

  lemma XmlCommentRunStep8(text: string)
    requires |text| == 8 && text[4] == 'x' && text[5] == '-' && text[6] == '-' && text[7] == '>'
    ensures Sane(text, Scanner(7, Char('>'), Char('-'), Char('-'), Char('x'), "<!--x--", XmlComment, None, [])) && Running(Scanner(7, Char('>'), Char('-'), Char('-'), Char('x'), "<!--x--", XmlComment, None, []))
    ensures Advance(text, Scanner(7, Char('>'), Char('-'), Char('-'), Char('x'), "<!--x--", XmlComment, None, [])) == Scanner(8, Undefined, Char('>'), Char('-'), Char('-'), "<!--x-->", XmlComment, None, [])
  {
    assert !Closes(text, Scanner(7, Char('>'), Char('-'), Char('-'), Char('x'), "<!--x--", XmlComment, None, []));
  }

  lemma XmlCommentRunStep9(text: string)
    requires |text| == 8 && text[5] == '-' && text[6] == '-' && text[7] == '>'
    ensures Sane(text, Scanner(8, Undefined, Char('>'), Char('-'), Char('-'), "<!--x-->", XmlComment, None, [])) && Running(Scanner(8, Undefined, Char('>'), Char('-'), Char('-'), "<!--x-->", XmlComment, None, []))
    ensures Advance(text, Scanner(8, Undefined, Char('>'), Char('-'), Char('-'), "<!--x-->", XmlComment, None, [])) == Scanner(9, Undefined, Undefined, Char('>'), Char('-'), "undefined", Word, None, [Token("<!--x-->", XmlComment)])
    ensures !Running(Scanner(9, Undefined, Undefined, Char('>'), Char('-'), "undefined", Word, None, [Token("<!--x-->", XmlComment)]))
  {
    assert Closes(text, Scanner(8, Undefined, Char('>'), Char('-'), Char('-'), "<!--x-->", XmlComment, None, []));
  }

  // A block comment closes once its last two characters are a star and a slash, so `/*/` is already a whole comment.
  lemma ShortBlockComment()
    ensures Tokens("/*/x") == [Token("/*/", BlockComment), Token("x", Word)]
  {
    var text := "/*/x";
    ShortBlockCommentText1();
    ShortBlockCommentRun1(text);
  }

  lemma ShortBlockCommentText1()
    ensures var text := "/*/x";
            |text| == 4 && text[0] == '/' && text[1] == '*' && text[2] == '/' && text[3] == 'x'
  {
  }

  lemma ShortBlockCommentRun1(text: string)
    requires |text| == 4 && text[0] == '/' && text[1] == '*' && text[2] == '/' && text[3] == 'x'
    ensures Run(text, Init(text)) == Scanner(5, Undefined, Undefined, Char('x'), Char('/'), "undefined", Word, Some(Word), [Token("/*/", BlockComment), Token("x", Word)])
  {
    var s0 := Init(text);
    var s1 := Scanner(1, Char('*'), Char('/'), Marker, Undefined, "/", BlockComment, None, []);
    var s2 := Scanner(2, Char('/'), Char('*'), Char('/'), Marker, "/*", BlockComment, None, []);
    var s3 := Scanner(3, Char('x'), Char('/'), Char('*'), Char('/'), "/*/", BlockComment, None, []);
    var s4 := Scanner(4, Undefined, Char('x'), Char('/'), Char('*'), "x", Word, None, [Token("/*/", BlockComment)]);
    var s5 := Scanner(5, Undefined, Undefined, Char('x'), Char('/'), "undefined", Word, Some(Word), [Token("/*/", BlockComment), Token("x", Word)]);
    ShortBlockCommentStep1(text);
    RunStep(text, s0);
    ShortBlockCommentStep2(text);
    RunStep(text, s1);
    ShortBlockCommentStep3(text);
    RunStep(text, s2);
    ShortBlockCommentStep4(text);
    RunStep(text, s3);
    ShortBlockCommentStep5(text);
    RunStep(text, s4);
  }

  lemma ShortBlockCommentStep1(text: string)
    requires |text| == 4 && text[0] == '/' && text[1] == '*' && text[2] == '/' && text[3] == 'x'
    ensures Sane(text, Init(text)) && Running(Init(text))
    ensures Advance(text, Init(text)) == Scanner(1, Char('*'), Char('/'), Marker, Undefined, "/", BlockComment, None, [])
  {
    assert Closes(text, Init(text));
  }

  lemma ShortBlockCommentStep2(text: string)
    requires |text| == 4 && text[0] == '/' && text[1] == '*' && text[2] == '/' && text[3] == 'x'
    ensures Sane(text, Scanner(1, Char('*'), Char('/'), Marker, Undefined, "/", BlockComment, None, [])) && Running(Scanner(1, Char('*'), Char('/'), Marker, Undefined, "/", BlockComment, None, []))
    ensures Advance(text, Scanner(1, Char('*'), Char('/'), Marker, Undefined, "/", BlockComment, None, [])) == Scanner(2, Char('/'), Char('*'), Char('/'), Marker, "/*", BlockComment, None, [])
  {
    assert !Closes(text, Scanner(1, Char('*'), Char('/'), Marker, Undefined, "/", BlockComment, None, []));
  }

  lemma ShortBlockCommentStep3(text: string)
    requires |text| == 4 && text[0] == '/' && text[1] == '*' && text[2] == '/' && text[3] == 'x'
    ensures Sane(text, Scanner(2, Char('/'), Char('*'), Char('/'), Marker, "/*", BlockComment, None, [])) && Running(Scanner(2, Char('/'), Char('*'), Char('/'), Marker, "/*", BlockComment, None, []))
    ensures Advance(text, Scanner(2, Char('/'), Char('*'), Char('/'), Marker, "/*", BlockComment, None, [])) == Scanner(3, Char('x'), Char('/'), Char('*'), Char('/'), "/*/", BlockComment, None, [])
  {
    assert !Closes(text, Scanner(2, Char('/'), Char('*'), Char('/'), Marker, "/*", BlockComment, None, []));
  }

  lemma ShortBlockCommentStep4(text: string)
    requires |text| == 4 && text[0] == '/' && text[1] == '*' && text[2] == '/' && text[3] == 'x'
    ensures Sane(text, Scanner(3, Char('x'), Char('/'), Char('*'), Char('/'), "/*/", BlockComment, None, [])) && Running(Scanner(3, Char('x'), Char('/'), Char('*'), Char('/'), "/*/", BlockComment, None, []))
    ensures Advance(text, Scanner(3, Char('x'), Char('/'), Char('*'), Char('/'), "/*/", BlockComment, None, [])) == Scanner(4, Undefined, Char('x'), Char('/'), Char('*'), "x", Word, None, [Token("/*/", BlockComment)])
  {
    assert Closes(text, Scanner(3, Char('x'), Char('/'), Char('*'), Char('/'), "/*/", BlockComment, None, []));
  }

  lemma ShortBlockCommentStep5(text: string)
    requires |text| == 4 && text[1] == '*' && text[2] == '/' && text[3] == 'x'
    ensures Sane(text, Scanner(4, Undefined, Char('x'), Char('/'), Char('*'), "x", Word, None, [Token("/*/", BlockComment)])) && Running(Scanner(4, Undefined, Char('x'), Char('/'), Char('*'), "x", Word, None, [Token("/*/", BlockComment)]))
    ensures Advance(text, Scanner(4, Undefined, Char('x'), Char('/'), Char('*'), "x", Word, None, [Token("/*/", BlockComment)])) == Scanner(5, Undefined, Undefined, Char('x'), Char('/'), "undefined", Word, Some(Word), [Token("/*/", BlockComment), Token("x", Word)])
    ensures !Running(Scanner(5, Undefined, Undefined, Char('x'), Char('/'), "undefined", Word, Some(Word), [Token("/*/", BlockComment), Token("x", Word)]))
  {
    assert Closes(text, Scanner(4, Undefined, Char('x'), Char('/'), Char('*'), "x", Word, None, [Token("/*/", BlockComment)]));
  }

  // The closing test of a block comment looks at the two characters read last, even when the first of them belongs to the token before: a `/*` right after `*` is cut after its slash.
  lemma StarSlashStar()
    ensures Tokens("*/*") == [Token("*", Operator), Token("/", BlockComment), Token("*", Operator)]
  {
    var text := "*/*";
    StarSlashStarText1();
    StarSlashStarRun1(text);
  }

  lemma StarSlashStarText1()
    ensures var text := "*/*";
            |text| == 3 && text[0] == '*' && text[1] == '/' && text[2] == '*'
  {
  }

  lemma StarSlashStarRun1(text: string)
    requires |text| == 3 && text[0] == '*' && text[1] == '/' && text[2] == '*'
    ensures Run(text, Init(text)) == Scanner(4, Undefined, Undefined, Char('*'), Char('/'), "undefined", Word, Some(Operator), [Token("*", Operator), Token("/", BlockComment), Token("*", Operator)])
  {
    var s0 := Init(text);
    var s1 := Scanner(1, Char('/'), Char('*'), Marker, Undefined, "*", Operator, None, []);
    var s2 := Scanner(2, Char('*'), Char('/'), Char('*'), Marker, "/", BlockComment, Some(Operator), [Token("*", Operator)]);
    var s3 := Scanner(3, Undefined, Char('*'), Char('/'), Char('*'), "*", Operator, Some(Operator), [Token("*", Operator), Token("/", BlockComment)]);
    var s4 := Scanner(4, Undefined, Undefined, Char('*'), Char('/'), "undefined", Word, Some(Operator), [Token("*", Operator), Token("/", BlockComment), Token("*", Operator)]);
    StarSlashStarStep1(text);
    RunStep(text, s0);
    StarSlashStarStep2(text);
    RunStep(text, s1);
    StarSlashStarStep3(text);
    RunStep(text, s2);
    StarSlashStarStep4(text);
    RunStep(text, s3);
  }

  lemma StarSlashStarStep1(text: string)
    requires |text| == 3 && text[0] == '*' && text[1] == '/' && text[2] == '*'
    ensures Sane(text, Init(text)) && Running(Init(text))
    ensures Advance(text, Init(text)) == Scanner(1, Char('/'), Char('*'), Marker, Undefined, "*", Operator, None, [])
  {
    assert Closes(text, Init(text));
  }

  lemma StarSlashStarStep2(text: string)
    requires |text| == 3 && text[0] == '*' && text[1] == '/' && text[2] == '*'
    ensures Sane(text, Scanner(1, Char('/'), Char('*'), Marker, Undefined, "*", Operator, None, [])) && Running(Scanner(1, Char('/'), Char('*'), Marker, Undefined, "*", Operator, None, []))
    ensures Advance(text, Scanner(1, Char('/'), Char('*'), Marker, Undefined, "*", Operator, None, [])) == Scanner(2, Char('*'), Char('/'), Char('*'), Marker, "/", BlockComment, Some(Operator), [Token("*", Operator)])
  {
    assert Closes(text, Scanner(1, Char('/'), Char('*'), Marker, Undefined, "*", Operator, None, []));
  }

  lemma StarSlashStarStep3(text: string)
    requires |text| == 3 && text[0] == '*' && text[1] == '/' && text[2] == '*'
    ensures Sane(text, Scanner(2, Char('*'), Char('/'), Char('*'), Marker, "/", BlockComment, Some(Operator), [Token("*", Operator)])) && Running(Scanner(2, Char('*'), Char('/'), Char('*'), Marker, "/", BlockComment, Some(Operator), [Token("*", Operator)]))
    ensures Advance(text, Scanner(2, Char('*'), Char('/'), Char('*'), Marker, "/", BlockComment, Some(Operator), [Token("*", Operator)])) == Scanner(3, Undefined, Char('*'), Char('/'), Char('*'), "*", Operator, Some(Operator), [Token("*", Operator), Token("/", BlockComment)])
  {
    assert Closes(text, Scanner(2, Char('*'), Char('/'), Char('*'), Marker, "/", BlockComment, Some(Operator), [Token("*", Operator)]));
  }

  lemma StarSlashStarStep4(text: string)
    requires |text| == 3 && text[0] == '*' && text[1] == '/' && text[2] == '*'
    ensures Sane(text, Scanner(3, Undefined, Char('*'), Char('/'), Char('*'), "*", Operator, Some(Operator), [Token("*", Operator), Token("/", BlockComment)])) && Running(Scanner(3, Undefined, Char('*'), Char('/'), Char('*'), "*", Operator, Some(Operator), [Token("*", Operator), Token("/", BlockComment)]))
    ensures Advance(text, Scanner(3, Undefined, Char('*'), Char('/'), Char('*'), "*", Operator, Some(Operator), [Token("*", Operator), Token("/", BlockComment)])) == Scanner(4, Undefined, Undefined, Char('*'), Char('/'), "undefined", Word, Some(Operator), [Token("*", Operator), Token("/", BlockComment), Token("*", Operator)])
    ensures !Running(Scanner(4, Undefined, Undefined, Char('*'), Char('/'), "undefined", Word, Some(Operator), [Token("*", Operator), Token("/", BlockComment), Token("*", Operator)]))
  {
    assert Closes(text, Scanner(3, Undefined, Char('*'), Char('/'), Char('*'), "*", Operator, Some(Operator), [Token("*", Operator), Token("/", BlockComment)]));
  }

  // A text whose last character is a backslash not escaped by a backslash gets an extra token `undefined`.
  lemma TrailingBackslash()
    ensures Tokens("ls \\") == [Token("ls", Word), Token(" ", Neutral), Token("\\", Operator), Token("undefined", Word)]
  {
    var text := "ls \\";
    TrailingBackslashText1();
    TrailingBackslashRun1(text);
  }

  lemma TrailingBackslashText1()
    ensures var text := "ls \\";
            |text| == 4 && text[0] == 'l' && text[1] == 's' && text[2] == ' ' && text[3] == '\\'
  {
  }

  lemma TrailingBackslashRun1(text: string)
    requires |text| == 4 && text[0] == 'l' && text[1] == 's' && text[2] == ' ' && text[3] == '\\'
    ensures Run(text, Init(text)) == Scanner(6, Undefined, Undefined, Marker, Char('\\'), "undefined", Word, Some(Word), [Token("ls", Word), Token(" ", Neutral), Token("\\", Operator), Token("undefined", Word)])
  {
    var s0 := Init(text);
    var s1 := Scanner(1, Char('s'), Char('l'), Marker, Undefined, "l", Word, None, []);
    var s2 := Scanner(2, Char(' '), Char('s'), Char('l'), Marker, "ls", Word, None, []);
    var s3 := Scanner(3, Char('\\'), Char(' '), Char('s'), Char('l'), " ", Neutral, Some(Word), [Token("ls", Word)]);
    var s4 := Scanner(4, Undefined, Char('\\'), Char(' '), Char('s'), "\\", Operator, Some(Word), [Token("ls", Word), Token(" ", Neutral)]);
    var s5 := Scanner(5, Undefined, Undefined, Char('\\'), Char(' '), "undefined", Word, Some(Operator), [Token("ls", Word), Token(" ", Neutral), Token("\\", Operator)]);
    var s6 := Scanner(6, Undefined, Undefined, Marker, Char('\\'), "undefined", Word, Some(Word), [Token("ls", Word), Token(" ", Neutral), Token("\\", Operator), Token("undefined", Word)]);
    TrailingBackslashStep1(text);
    RunStep(text, s0);
    TrailingBackslashStep2(text);
    RunStep(text, s1);
    TrailingBackslashStep3(text);
    RunStep(text, s2);
    TrailingBackslashStep4(text);
    RunStep(text, s3);
    TrailingBackslashStep5(text);
    RunStep(text, s4);
    TrailingBackslashStep6(text);
    RunStep(text, s5);
  }

  lemma TrailingBackslashStep1(text: string)
    requires |text| == 4 && text[0] == 'l' && text[1] == 's' && text[2] == ' ' && text[3] == '\\'
    ensures Sane(text, Init(text)) && Running(Init(text))
    ensures Advance(text, Init(text)) == Scanner(1, Char('s'), Char('l'), Marker, Undefined, "l", Word, None, [])
  {
    assert Closes(text, Init(text));
  }

  lemma TrailingBackslashStep2(text: string)
    requires |text| == 4 && text[0] == 'l' && text[1] == 's' && text[2] == ' ' && text[3] == '\\'
    ensures Sane(text, Scanner(1, Char('s'), Char('l'), Marker, Undefined, "l", Word, None, [])) && Running(Scanner(1, Char('s'), Char('l'), Marker, Undefined, "l", Word, None, []))
    ensures Advance(text, Scanner(1, Char('s'), Char('l'), Marker, Undefined, "l", Word, None, [])) == Scanner(2, Char(' '), Char('s'), Char('l'), Marker, "ls", Word, None, [])
  {
    assert !Closes(text, Scanner(1, Char('s'), Char('l'), Marker, Undefined, "l", Word, None, []));
  }

  lemma TrailingBackslashStep3(text: string)
    requires |text| == 4 && text[0] == 'l' && text[1] == 's' && text[2] == ' ' && text[3] == '\\'
    ensures Sane(text, Scanner(2, Char(' '), Char('s'), Char('l'), Marker, "ls", Word, None, [])) && Running(Scanner(2, Char(' '), Char('s'), Char('l'), Marker, "ls", Word, None, []))
    ensures Advance(text, Scanner(2, Char(' '), Char('s'), Char('l'), Marker, "ls", Word, None, [])) == Scanner(3, Char('\\'), Char(' '), Char('s'), Char('l'), " ", Neutral, Some(Word), [Token("ls", Word)])
  {
    assert Closes(text, Scanner(2, Char(' '), Char('s'), Char('l'), Marker, "ls", Word, None, []));
  }

  lemma TrailingBackslashStep4(text: string)
    requires |text| == 4 && text[0] == 'l' && text[1] == 's' && text[2] == ' ' && text[3] == '\\'
    ensures Sane(text, Scanner(3, Char('\\'), Char(' '), Char('s'), Char('l'), " ", Neutral, Some(Word), [Token("ls", Word)])) && Running(Scanner(3, Char('\\'), Char(' '), Char('s'), Char('l'), " ", Neutral, Some(Word), [Token("ls", Word)]))
    ensures Advance(text, Scanner(3, Char('\\'), Char(' '), Char('s'), Char('l'), " ", Neutral, Some(Word), [Token("ls", Word)])) == Scanner(4, Undefined, Char('\\'), Char(' '), Char('s'), "\\", Operator, Some(Word), [Token("ls", Word), Token(" ", Neutral)])
  {
    assert Closes(text, Scanner(3, Char('\\'), Char(' '), Char('s'), Char('l'), " ", Neutral, Some(Word), [Token("ls", Word)]));
  }

  lemma TrailingBackslashStep5(text: string)
    requires |text| == 4 && text[1] == 's' && text[2] == ' ' && text[3] == '\\'
    ensures Sane(text, Scanner(4, Undefined, Char('\\'), Char(' '), Char('s'), "\\", Operator, Some(Word), [Token("ls", Word), Token(" ", Neutral)])) && Running(Scanner(4, Undefined, Char('\\'), Char(' '), Char('s'), "\\", Operator, Some(Word), [Token("ls", Word), Token(" ", Neutral)]))
    ensures Advance(text, Scanner(4, Undefined, Char('\\'), Char(' '), Char('s'), "\\", Operator, Some(Word), [Token("ls", Word), Token(" ", Neutral)])) == Scanner(5, Undefined, Undefined, Char('\\'), Char(' '), "undefined", Word, Some(Operator), [Token("ls", Word), Token(" ", Neutral), Token("\\", Operator)])
  {
    assert Closes(text, Scanner(4, Undefined, Char('\\'), Char(' '), Char('s'), "\\", Operator, Some(Word), [Token("ls", Word), Token(" ", Neutral)]));
  }

  lemma TrailingBackslashStep6(text: string)
    requires |text| == 4 && text[2] == ' ' && text[3] == '\\'
    ensures Sane(text, Scanner(5, Undefined, Undefined, Char('\\'), Char(' '), "undefined", Word, Some(Operator), [Token("ls", Word), Token(" ", Neutral), Token("\\", Operator)])) && Running(Scanner(5, Undefined, Undefined, Char('\\'), Char(' '), "undefined", Word, Some(Operator), [Token("ls", Word), Token(" ", Neutral), Token("\\", Operator)]))
    ensures Advance(text, Scanner(5, Undefined, Undefined, Char('\\'), Char(' '), "undefined", Word, Some(Operator), [Token("ls", Word), Token(" ", Neutral), Token("\\", Operator)])) == Scanner(6, Undefined, Undefined, Marker, Char('\\'), "undefined", Word, Some(Word), [Token("ls", Word), Token(" ", Neutral), Token("\\", Operator), Token("undefined", Word)])
    ensures !Running(Scanner(6, Undefined, Undefined, Marker, Char('\\'), "undefined", Word, Some(Word), [Token("ls", Word), Token(" ", Neutral), Token("\\", Operator), Token("undefined", Word)]))
  {
    assert Closes(text, Scanner(5, Undefined, Undefined, Char('\\'), Char(' '), "undefined", Word, Some(Operator), [Token("ls", Word), Token(" ", Neutral), Token("\\", Operator)]));
  }

  // A comment ending in a backslash gets the extra token too: by the last loop condition the current token is the word `undefined`, so the backslash is masked and the mask `1` keeps the loop going.
  lemma CommentTrailingBackslash()
    ensures Tokens("#\\") == [Token("#\\", HashComment), Token("undefined", Word)]
  {
    var text := "#\\";
    CommentTrailingBackslashText1();
    CommentTrailingBackslashRun1(text);
  }

  lemma CommentTrailingBackslashText1()
    ensures var text := "#\\";
            |text| == 2 && text[0] == '#' && text[1] == '\\'
  {
  }

  lemma CommentTrailingBackslashRun1(text: string)
    requires |text| == 2 && text[0] == '#' && text[1] == '\\'
    ensures Run(text, Init(text)) == Scanner(4, Undefined, Undefined, Marker, Char('\\'), "undefined", Word, Some(Word), [Token("#\\", HashComment), Token("undefined", Word)])
  {
    var s0 := Init(text);
    var s1 := Scanner(1, Char('\\'), Char('#'), Marker, Undefined, "#", HashComment, None, []);
    var s2 := Scanner(2, Undefined, Char('\\'), Char('#'), Marker, "#\\", HashComment, None, []);
    var s3 := Scanner(3, Undefined, Undefined, Char('\\'), Char('#'), "undefined", Word, None, [Token("#\\", HashComment)]);
    var s4 := Scanner(4, Undefined, Undefined, Marker, Char('\\'), "undefined", Word, Some(Word), [Token("#\\", HashComment), Token("undefined", Word)]);
    CommentTrailingBackslashStep1(text);
    RunStep(text, s0);
    CommentTrailingBackslashStep2(text);
    RunStep(text, s1);
    CommentTrailingBackslashStep3(text);
    RunStep(text, s2);
    CommentTrailingBackslashStep4(text);
    RunStep(text, s3);
  }

  lemma CommentTrailingBackslashStep1(text: string)
    requires |text| == 2 && text[0] == '#' && text[1] == '\\'
    ensures Sane(text, Init(text)) && Running(Init(text))
    ensures Advance(text, Init(text)) == Scanner(1, Char('\\'), Char('#'), Marker, Undefined, "#", HashComment, None, [])
  {
    assert Closes(text, Init(text));
  }

  lemma CommentTrailingBackslashStep2(text: string)
    requires |text| == 2 && text[0] == '#' && text[1] == '\\'
    ensures Sane(text, Scanner(1, Char('\\'), Char('#'), Marker, Undefined, "#", HashComment, None, [])) && Running(Scanner(1, Char('\\'), Char('#'), Marker, Undefined, "#", HashComment, None, []))
    ensures Advance(text, Scanner(1, Char('\\'), Char('#'), Marker, Undefined, "#", HashComment, None, [])) == Scanner(2, Undefined, Char('\\'), Char('#'), Marker, "#\\", HashComment, None, [])
  {
    assert !Closes(text, Scanner(1, Char('\\'), Char('#'), Marker, Undefined, "#", HashComment, None, []));
  }

  lemma CommentTrailingBackslashStep3(text: string)
    requires |text| == 2 && text[0] == '#' && text[1] == '\\'
    ensures Sane(text, Scanner(2, Undefined, Char('\\'), Char('#'), Marker, "#\\", HashComment, None, [])) && Running(Scanner(2, Undefined, Char('\\'), Char('#'), Marker, "#\\", HashComment, None, []))
    ensures Advance(text, Scanner(2, Undefined, Char('\\'), Char('#'), Marker, "#\\", HashComment, None, [])) == Scanner(3, Undefined, Undefined, Char('\\'), Char('#'), "undefined", Word, None, [Token("#\\", HashComment)])
  {
    assert Closes(text, Scanner(2, Undefined, Char('\\'), Char('#'), Marker, "#\\", HashComment, None, []));
  }

  lemma CommentTrailingBackslashStep4(text: string)
    requires |text| == 2 && text[0] == '#' && text[1] == '\\'
    ensures Sane(text, Scanner(3, Undefined, Undefined, Char('\\'), Char('#'), "undefined", Word, None, [Token("#\\", HashComment)])) && Running(Scanner(3, Undefined, Undefined, Char('\\'), Char('#'), "undefined", Word, None, [Token("#\\", HashComment)]))
    ensures Advance(text, Scanner(3, Undefined, Undefined, Char('\\'), Char('#'), "undefined", Word, None, [Token("#\\", HashComment)])) == Scanner(4, Undefined, Undefined, Marker, Char('\\'), "undefined", Word, Some(Word), [Token("#\\", HashComment), Token("undefined", Word)])
    ensures !Running(Scanner(4, Undefined, Undefined, Marker, Char('\\'), "undefined", Word, Some(Word), [Token("#\\", HashComment), Token("undefined", Word)]))
  {
    assert Closes(text, Scanner(3, Undefined, Undefined, Char('\\'), Char('#'), "undefined", Word, None, [Token("#\\", HashComment)]));
  }

  // A text ending in an escaped backslash gets no extra token: the last backslash is itself masked, so the last loop condition finds no backslash to mask and stops.
  lemma EscapedTrailingBackslash()
    ensures Tokens("a\\\\") == [Token("a", Word), Token("\\", Operator), Token("\\", Operator)]
  {
    var text := "a\\\\";
    EscapedTrailingBackslashText1();
    EscapedTrailingBackslashRun1(text);
  }

  lemma EscapedTrailingBackslashText1()
    ensures var text := "a\\\\";
            |text| == 3 && text[0] == 'a' && text[1] == '\\' && text[2] == '\\'
  {
  }

  lemma EscapedTrailingBackslashRun1(text: string)
    requires |text| == 3 && text[0] == 'a' && text[1] == '\\' && text[2] == '\\'
    ensures Run(text, Init(text)) == Scanner(4, Undefined, Undefined, Marker, Char('\\'), "undefined", Word, Some(Operator), [Token("a", Word), Token("\\", Operator), Token("\\", Operator)])
  {
    var s0 := Init(text);
    var s1 := Scanner(1, Char('\\'), Char('a'), Marker, Undefined, "a", Word, None, []);
    var s2 := Scanner(2, Char('\\'), Char('\\'), Char('a'), Marker, "\\", Operator, Some(Word), [Token("a", Word)]);
    var s3 := Scanner(3, Undefined, Char('\\'), Char('\\'), Char('a'), "\\", Operator, Some(Operator), [Token("a", Word), Token("\\", Operator)]);
    var s4 := Scanner(4, Undefined, Undefined, Marker, Char('\\'), "undefined", Word, Some(Operator), [Token("a", Word), Token("\\", Operator), Token("\\", Operator)]);
    EscapedTrailingBackslashStep1(text);
    RunStep(text, s0);
    EscapedTrailingBackslashStep2(text);
    RunStep(text, s1);
    EscapedTrailingBackslashStep3(text);
    RunStep(text, s2);
    EscapedTrailingBackslashStep4(text);
    RunStep(text, s3);
  }

  lemma EscapedTrailingBackslashStep1(text: string)
    requires |text| == 3 && text[0] == 'a' && text[1] == '\\' && text[2] == '\\'
    ensures Sane(text, Init(text)) && Running(Init(text))
    ensures Advance(text, Init(text)) == Scanner(1, Char('\\'), Char('a'), Marker, Undefined, "a", Word, None, [])
  {
    assert Closes(text, Init(text));
  }

  lemma EscapedTrailingBackslashStep2(text: string)
    requires |text| == 3 && text[0] == 'a' && text[1] == '\\' && text[2] == '\\'
    ensures Sane(text, Scanner(1, Char('\\'), Char('a'), Marker, Undefined, "a", Word, None, [])) && Running(Scanner(1, Char('\\'), Char('a'), Marker, Undefined, "a", Word, None, []))
    ensures Advance(text, Scanner(1, Char('\\'), Char('a'), Marker, Undefined, "a", Word, None, [])) == Scanner(2, Char('\\'), Char('\\'), Char('a'), Marker, "\\", Operator, Some(Word), [Token("a", Word)])
  {
    assert Closes(text, Scanner(1, Char('\\'), Char('a'), Marker, Undefined, "a", Word, None, []));
  }

  lemma EscapedTrailingBackslashStep3(text: string)
    requires |text| == 3 && text[0] == 'a' && text[1] == '\\' && text[2] == '\\'
    ensures Sane(text, Scanner(2, Char('\\'), Char('\\'), Char('a'), Marker, "\\", Operator, Some(Word), [Token("a", Word)])) && Running(Scanner(2, Char('\\'), Char('\\'), Char('a'), Marker, "\\", Operator, Some(Word), [Token("a", Word)]))
    ensures Advance(text, Scanner(2, Char('\\'), Char('\\'), Char('a'), Marker, "\\", Operator, Some(Word), [Token("a", Word)])) == Scanner(3, Undefined, Char('\\'), Char('\\'), Char('a'), "\\", Operator, Some(Operator), [Token("a", Word), Token("\\", Operator)])
  {
    assert Closes(text, Scanner(2, Char('\\'), Char('\\'), Char('a'), Marker, "\\", Operator, Some(Word), [Token("a", Word)]));
  }

  lemma EscapedTrailingBackslashStep4(text: string)
    requires |text| == 3 && text[0] == 'a' && text[1] == '\\' && text[2] == '\\'
    ensures Sane(text, Scanner(3, Undefined, Char('\\'), Char('\\'), Char('a'), "\\", Operator, Some(Operator), [Token("a", Word), Token("\\", Operator)])) && Running(Scanner(3, Undefined, Char('\\'), Char('\\'), Char('a'), "\\", Operator, Some(Operator), [Token("a", Word), Token("\\", Operator)]))
    ensures Advance(text, Scanner(3, Undefined, Char('\\'), Char('\\'), Char('a'), "\\", Operator, Some(Operator), [Token("a", Word), Token("\\", Operator)])) == Scanner(4, Undefined, Undefined, Marker, Char('\\'), "undefined", Word, Some(Operator), [Token("a", Word), Token("\\", Operator), Token("\\", Operator)])
    ensures !Running(Scanner(4, Undefined, Undefined, Marker, Char('\\'), "undefined", Word, Some(Operator), [Token("a", Word), Token("\\", Operator), Token("\\", Operator)]))
  {
    assert Closes(text, Scanner(3, Undefined, Char('\\'), Char('\\'), Char('a'), "\\", Operator, Some(Operator), [Token("a", Word), Token("\\", Operator)]));
  }

  // A word, a string and a line comment, separated by white space.
  lemma KeywordStringComment()
    ensures Tokens("if \"s\" // c") == [Token("if", Word), Token(" ", Neutral), Token("\"s\"", DoubleQuoted), Token(" ", Neutral), Token("// c", SlashComment)]
  {
    var text := "if \"s\" // c";
    KeywordStringCommentText1();
    KeywordStringCommentText2();
    KeywordStringCommentRun1(text);
    KeywordStringCommentRun2(text);
  }

  lemma KeywordStringCommentText1()
    ensures var text := "if \"s\" // c";
            |text| == 11 && text[0] == 'i' && text[1] == 'f' && text[2] == ' ' && text[3] == '"' && text[4] == 's' && text[5] == '"' && text[6] == ' ' && text[7] == '/'
  {
  }

  lemma KeywordStringCommentText2()
    ensures var text := "if \"s\" // c";
            |text| == 11 && text[8] == '/' && text[9] == ' ' && text[10] == 'c'
  {
  }

  lemma KeywordStringCommentRun1(text: string)
    requires |text| == 11 && text[0] == 'i' && text[1] == 'f' && text[2] == ' ' && text[3] == '"' && text[4] == 's' && text[5] == '"' && text[6] == ' ' && text[7] == '/' && text[8] == '/'
    ensures Run(text, Init(text)) == Run(text, Scanner(6, Char(' '), Char('"'), Char('s'), Char('"'), "\"s\"", DoubleQuoted, Some(Word), [Token("if", Word), Token(" ", Neutral)]))
  {
    var s0 := Init(text);
    var s1 := Scanner(1, Char('f'), Char('i'), Marker, Undefined, "i", Word, None, []);
    var s2 := Scanner(2, Char(' '), Char('f'), Char('i'), Marker, "if", Word, None, []);
    var s3 := Scanner(3, Char('"'), Char(' '), Char('f'), Char('i'), " ", Neutral, Some(Word), [Token("if", Word)]);
    var s4 := Scanner(4, Char('s'), Char('"'), Char(' '), Char('f'), "\"", DoubleQuoted, Some(Word), [Token("if", Word), Token(" ", Neutral)]);
    var s5 := Scanner(5, Char('"'), Char('s'), Char('"'), Char(' '), "\"s", DoubleQuoted, Some(Word), [Token("if", Word), Token(" ", Neutral)]);
    var s6 := Scanner(6, Char(' '), Char('"'), Char('s'), Char('"'), "\"s\"", DoubleQuoted, Some(Word), [Token("if", Word), Token(" ", Neutral)]);
    KeywordStringCommentStep1(text);
    RunStep(text, s0);
    KeywordStringCommentStep2(text);
    RunStep(text, s1);
    KeywordStringCommentStep3(text);
    RunStep(text, s2);
    KeywordStringCommentStep4(text);
    RunStep(text, s3);
    KeywordStringCommentStep5(text);
    RunStep(text, s4);
    KeywordStringCommentStep6(text);
    RunStep(text, s5);
  }

  lemma KeywordStringCommentRun2(text: string)
    requires |text| == 11 && text[3] == '"' && text[4] == 's' && text[5] == '"' && text[6] == ' ' && text[7] == '/' && text[8] == '/' && text[9] == ' ' && text[10] == 'c'
    ensures Run(text, Scanner(6, Char(' '), Char('"'), Char('s'), Char('"'), "\"s\"", DoubleQuoted, Some(Word), [Token("if", Word), Token(" ", Neutral)])) == Scanner(12, Undefined, Undefined, Char('c'), Char(' '), "undefined", Word, Some(DoubleQuoted), [Token("if", Word), Token(" ", Neutral), Token("\"s\"", DoubleQuoted), Token(" ", Neutral), Token("// c", SlashComment)])
  {
    var s6 := Scanner(6, Char(' '), Char('"'), Char('s'), Char('"'), "\"s\"", DoubleQuoted, Some(Word), [Token("if", Word), Token(" ", Neutral)]);
    var s7 := Scanner(7, Char('/'), Char(' '), Char('"'), Char('s'), " ", Neutral, Some(DoubleQuoted), [Token("if", Word), Token(" ", Neutral), Token("\"s\"", DoubleQuoted)]);
    var s8 := Scanner(8, Char('/'), Char('/'), Char(' '), Char('"'), "/", SlashComment, Some(DoubleQuoted), [Token("if", Word), Token(" ", Neutral), Token("\"s\"", DoubleQuoted), Token(" ", Neutral)]);
    var s9 := Scanner(9, Char(' '), Char('/'), Char('/'), Char(' '), "//", SlashComment, Some(DoubleQuoted), [Token("if", Word), Token(" ", Neutral), Token("\"s\"", DoubleQuoted), Token(" ", Neutral)]);
    var s10 := Scanner(10, Char('c'), Char(' '), Char('/'), Char('/'), "// ", SlashComment, Some(DoubleQuoted), [Token("if", Word), Token(" ", Neutral), Token("\"s\"", DoubleQuoted), Token(" ", Neutral)]);
    var s11 := Scanner(11, Undefined, Char('c'), Char(' '), Char('/'), "// c", SlashComment, Some(DoubleQuoted), [Token("if", Word), Token(" ", Neutral), Token("\"s\"", DoubleQuoted), Token(" ", Neutral)]);
    var s12 := Scanner(12, Undefined, Undefined, Char('c'), Char(' '), "undefined", Word, Some(DoubleQuoted), [Token("if", Word), Token(" ", Neutral), Token("\"s\"", DoubleQuoted), Token(" ", Neutral), Token("// c", SlashComment)]);
    KeywordStringCommentStep7(text);
    RunStep(text, s6);
    KeywordStringCommentStep8(text);
    RunStep(text, s7);
    KeywordStringCommentStep9(text);
    RunStep(text, s8);
    KeywordStringCommentStep10(text);
    RunStep(text, s9);
    KeywordStringCommentStep11(text);
    RunStep(text, s10);
    KeywordStringCommentStep12(text);
    RunStep(text, s11);
  }

  lemma KeywordStringCommentStep1(text: string)
    requires |text| == 11 && text[0] == 'i' && text[1] == 'f' && text[2] == ' ' && text[3] == '"'
    ensures Sane(text, Init(text)) && Running(Init(text))
    ensures Advance(text, Init(text)) == Scanner(1, Char('f'), Char('i'), Marker, Undefined, "i", Word, None, [])
  {
    assert Closes(text, Init(text));
  }

  lemma KeywordStringCommentStep2(text: string)
    requires |text| == 11 && text[0] == 'i' && text[1] == 'f' && text[2] == ' ' && text[3] == '"' && text[4] == 's'
    ensures Sane(text, Scanner(1, Char('f'), Char('i'), Marker, Undefined, "i", Word, None, [])) && Running(Scanner(1, Char('f'), Char('i'), Marker, Undefined, "i", Word, None, []))
    ensures Advance(text, Scanner(1, Char('f'), Char('i'), Marker, Undefined, "i", Word, None, [])) == Scanner(2, Char(' '), Char('f'), Char('i'), Marker, "if", Word, None, [])
  {
    assert !Closes(text, Scanner(1, Char('f'), Char('i'), Marker, Undefined, "i", Word, None, []));
  }

  lemma KeywordStringCommentStep3(text: string)
    requires |text| == 11 && text[0] == 'i' && text[1] == 'f' && text[2] == ' ' && text[3] == '"' && text[4] == 's' && text[5] == '"'
    ensures Sane(text, Scanner(2, Char(' '), Char('f'), Char('i'), Marker, "if", Word, None, [])) && Running(Scanner(2, Char(' '), Char('f'), Char('i'), Marker, "if", Word, None, []))
    ensures Advance(text, Scanner(2, Char(' '), Char('f'), Char('i'), Marker, "if", Word, None, [])) == Scanner(3, Char('"'), Char(' '), Char('f'), Char('i'), " ", Neutral, Some(Word), [Token("if", Word)])
  {
    assert Closes(text, Scanner(2, Char(' '), Char('f'), Char('i'), Marker, "if", Word, None, []));
  }

  lemma KeywordStringCommentStep4(text: string)
    requires |text| == 11 && text[0] == 'i' && text[1] == 'f' && text[2] == ' ' && text[3] == '"' && text[4] == 's' && text[5] == '"' && text[6] == ' '
    ensures Sane(text, Scanner(3, Char('"'), Char(' '), Char('f'), Char('i'), " ", Neutral, Some(Word), [Token("if", Word)])) && Running(Scanner(3, Char('"'), Char(' '), Char('f'), Char('i'), " ", Neutral, Some(Word), [Token("if", Word)]))
    ensures Advance(text, Scanner(3, Char('"'), Char(' '), Char('f'), Char('i'), " ", Neutral, Some(Word), [Token("if", Word)])) == Scanner(4, Char('s'), Char('"'), Char(' '), Char('f'), "\"", DoubleQuoted, Some(Word), [Token("if", Word), Token(" ", Neutral)])
  {
    assert Closes(text, Scanner(3, Char('"'), Char(' '), Char('f'), Char('i'), " ", Neutral, Some(Word), [Token("if", Word)]));
  }

  lemma KeywordStringCommentStep5(text: string)
    requires |text| == 11 && text[1] == 'f' && text[2] == ' ' && text[3] == '"' && text[4] == 's' && text[5] == '"' && text[6] == ' ' && text[7] == '/'
    ensures Sane(text, Scanner(4, Char('s'), Char('"'), Char(' '), Char('f'), "\"", DoubleQuoted, Some(Word), [Token("if", Word), Token(" ", Neutral)])) && Running(Scanner(4, Char('s'), Char('"'), Char(' '), Char('f'), "\"", DoubleQuoted, Some(Word), [Token("if", Word), Token(" ", Neutral)]))
    ensures Advance(text, Scanner(4, Char('s'), Char('"'), Char(' '), Char('f'), "\"", DoubleQuoted, Some(Word), [Token("if", Word), Token(" ", Neutral)])) == Scanner(5, Char('"'), Char('s'), Char('"'), Char(' '), "\"s", DoubleQuoted, Some(Word), [Token("if", Word), Token(" ", Neutral)])
  {
    assert !Closes(text, Scanner(4, Char('s'), Char('"'), Char(' '), Char('f'), "\"", DoubleQuoted, Some(Word), [Token("if", Word), Token(" ", Neutral)]));
  }

  lemma KeywordStringCommentStep6(text: string)
    requires |text| == 11 && text[2] == ' ' && text[3] == '"' && text[4] == 's' && text[5] == '"' && text[6] == ' ' && text[7] == '/' && text[8] == '/'
    ensures Sane(text, Scanner(5, Char('"'), Char('s'), Char('"'), Char(' '), "\"s", DoubleQuoted, Some(Word), [Token("if", Word), Token(" ", Neutral)])) && Running(Scanner(5, Char('"'), Char('s'), Char('"'), Char(' '), "\"s", DoubleQuoted, Some(Word), [Token("if", Word), Token(" ", Neutral)]))
    ensures Advance(text, Scanner(5, Char('"'), Char('s'), Char('"'), Char(' '), "\"s", DoubleQuoted, Some(Word), [Token("if", Word), Token(" ", Neutral)])) == Scanner(6, Char(' '), Char('"'), Char('s'), Char('"'), "\"s\"", DoubleQuoted, Some(Word), [Token("if", Word), Token(" ", Neutral)])
  {
    assert !Closes(text, Scanner(5, Char('"'), Char('s'), Char('"'), Char(' '), "\"s", DoubleQuoted, Some(Word), [Token("if", Word), Token(" ", Neutral)]));
  }

  lemma KeywordStringCommentStep7(text: string)
    requires |text| == 11 && text[3] == '"' && text[4] == 's' && text[5] == '"' && text[6] == ' ' && text[7] == '/' && text[8] == '/' && text[9] == ' '
    ensures Sane(text, Scanner(6, Char(' '), Char('"'), Char('s'), Char('"'), "\"s\"", DoubleQuoted, Some(Word), [Token("if", Word), Token(" ", Neutral)])) && Running(Scanner(6, Char(' '), Char('"'), Char('s'), Char('"'), "\"s\"", DoubleQuoted, Some(Word), [Token("if", Word), Token(" ", Neutral)]))
    ensures Advance(text, Scanner(6, Char(' '), Char('"'), Char('s'), Char('"'), "\"s\"", DoubleQuoted, Some(Word), [Token("if", Word), Token(" ", Neutral)])) == Scanner(7, Char('/'), Char(' '), Char('"'), Char('s'), " ", Neutral, Some(DoubleQuoted), [Token("if", Word), Token(" ", Neutral), Token("\"s\"", DoubleQuoted)])
  {
    assert Closes(text, Scanner(6, Char(' '), Char('"'), Char('s'), Char('"'), "\"s\"", DoubleQuoted, Some(Word), [Token("if", Word), Token(" ", Neutral)]));
  }

  lemma KeywordStringCommentStep8(text: string)
    requires |text| == 11 && text[4] == 's' && text[5] == '"' && text[6] == ' ' && text[7] == '/' && text[8] == '/' && text[9] == ' ' && text[10] == 'c'
    ensures Sane(text, Scanner(7, Char('/'), Char(' '), Char('"'), Char('s'), " ", Neutral, Some(DoubleQuoted), [Token("if", Word), Token(" ", Neutral), Token("\"s\"", DoubleQuoted)])) && Running(Scanner(7, Char('/'), Char(' '), Char('"'), Char('s'), " ", Neutral, Some(DoubleQuoted), [Token("if", Word), Token(" ", Neutral), Token("\"s\"", DoubleQuoted)]))
    ensures Advance(text, Scanner(7, Char('/'), Char(' '), Char('"'), Char('s'), " ", Neutral, Some(DoubleQuoted), [Token("if", Word), Token(" ", Neutral), Token("\"s\"", DoubleQuoted)])) == Scanner(8, Char('/'), Char('/'), Char(' '), Char('"'), "/", SlashComment, Some(DoubleQuoted), [Token("if", Word), Token(" ", Neutral), Token("\"s\"", DoubleQuoted), Token(" ", Neutral)])
  {
    assert Closes(text, Scanner(7, Char('/'), Char(' '), Char('"'), Char('s'), " ", Neutral, Some(DoubleQuoted), [Token("if", Word), Token(" ", Neutral), Token("\"s\"", DoubleQuoted)]));
  }

  lemma KeywordStringCommentStep9(text: string)
    requires |text| == 11 && text[5] == '"' && text[6] == ' ' && text[7] == '/' && text[8] == '/' && text[9] == ' ' && text[10] == 'c'
    ensures Sane(text, Scanner(8, Char('/'), Char('/'), Char(' '), Char('"'), "/", SlashComment, Some(DoubleQuoted), [Token("if", Word), Token(" ", Neutral), Token("\"s\"", DoubleQuoted), Token(" ", Neutral)])) && Running(Scanner(8, Char('/'), Char('/'), Char(' '), Char('"'), "/", SlashComment, Some(DoubleQuoted), [Token("if", Word), Token(" ", Neutral), Token("\"s\"", DoubleQuoted), Token(" ", Neutral)]))
    ensures Advance(text, Scanner(8, Char('/'), Char('/'), Char(' '), Char('"'), "/", SlashComment, Some(DoubleQuoted), [Token("if", Word), Token(" ", Neutral), Token("\"s\"", DoubleQuoted), Token(" ", Neutral)])) == Scanner(9, Char(' '), Char('/'), Char('/'), Char(' '), "//", SlashComment, Some(DoubleQuoted), [Token("if", Word), Token(" ", Neutral), Token("\"s\"", DoubleQuoted), Token(" ", Neutral)])
  {
    assert !Closes(text, Scanner(8, Char('/'), Char('/'), Char(' '), Char('"'), "/", SlashComment, Some(DoubleQuoted), [Token("if", Word), Token(" ", Neutral), Token("\"s\"", DoubleQuoted), Token(" ", Neutral)]));
  }

  lemma KeywordStringCommentStep10(text: string)
    requires |text| == 11 && text[6] == ' ' && text[7] == '/' && text[8] == '/' && text[9] == ' ' && text[10] == 'c'
    ensures Sane(text, Scanner(9, Char(' '), Char('/'), Char('/'), Char(' '), "//", SlashComment, Some(DoubleQuoted), [Token("if", Word), Token(" ", Neutral), Token("\"s\"", DoubleQuoted), Token(" ", Neutral)])) && Running(Scanner(9, Char(' '), Char('/'), Char('/'), Char(' '), "//", SlashComment, Some(DoubleQuoted), [Token("if", Word), Token(" ", Neutral), Token("\"s\"", DoubleQuoted), Token(" ", Neutral)]))
    ensures Advance(text, Scanner(9, Char(' '), Char('/'), Char('/'), Char(' '), "//", SlashComment, Some(DoubleQuoted), [Token("if", Word), Token(" ", Neutral), Token("\"s\"", DoubleQuoted), Token(" ", Neutral)])) == Scanner(10, Char('c'), Char(' '), Char('/'), Char('/'), "// ", SlashComment, Some(DoubleQuoted), [Token("if", Word), Token(" ", Neutral), Token("\"s\"", DoubleQuoted), Token(" ", Neutral)])
  {
    assert !Closes(text, Scanner(9, Char(' '), Char('/'), Char('/'), Char(' '), "//", SlashComment, Some(DoubleQuoted), [Token("if", Word), Token(" ", Neutral), Token("\"s\"", DoubleQuoted), Token(" ", Neutral)]));
  }

  lemma KeywordStringCommentStep11(text: string)
    requires |text| == 11 && text[7] == '/' && text[8] == '/' && text[9] == ' ' && text[10] == 'c'
    ensures Sane(text, Scanner(10, Char('c'), Char(' '), Char('/'), Char('/'), "// ", SlashComment, Some(DoubleQuoted), [Token("if", Word), Token(" ", Neutral), Token("\"s\"", DoubleQuoted), Token(" ", Neutral)])) && Running(Scanner(10, Char('c'), Char(' '), Char('/'), Char('/'), "// ", SlashComment, Some(DoubleQuoted), [Token("if", Word), Token(" ", Neutral), Token("\"s\"", DoubleQuoted), Token(" ", Neutral)]))
    ensures Advance(text, Scanner(10, Char('c'), Char(' '), Char('/'), Char('/'), "// ", SlashComment, Some(DoubleQuoted), [Token("if", Word), Token(" ", Neutral), Token("\"s\"", DoubleQuoted), Token(" ", Neutral)])) == Scanner(11, Undefined, Char('c'), Char(' '), Char('/'), "// c", SlashComment, Some(DoubleQuoted), [Token("if", Word), Token(" ", Neutral), Token("\"s\"", DoubleQuoted), Token(" ", Neutral)])
  {
    assert !Closes(text, Scanner(10, Char('c'), Char(' '), Char('/'), Char('/'), "// ", SlashComment, Some(DoubleQuoted), [Token("if", Word), Token(" ", Neutral), Token("\"s\"", DoubleQuoted), Token(" ", Neutral)]));
  }

  lemma KeywordStringCommentStep12(text: string)
    requires |text| == 11 && text[8] == '/' && text[9] == ' ' && text[10] == 'c'
    ensures Sane(text, Scanner(11, Undefined, Char('c'), Char(' '), Char('/'), "// c", SlashComment, Some(DoubleQuoted), [Token("if", Word), Token(" ", Neutral), Token("\"s\"", DoubleQuoted), Token(" ", Neutral)])) && Running(Scanner(11, Undefined, Char('c'), Char(' '), Char('/'), "// c", SlashComment, Some(DoubleQuoted), [Token("if", Word), Token(" ", Neutral), Token("\"s\"", DoubleQuoted), Token(" ", Neutral)]))
    ensures Advance(text, Scanner(11, Undefined, Char('c'), Char(' '), Char('/'), "// c", SlashComment, Some(DoubleQuoted), [Token("if", Word), Token(" ", Neutral), Token("\"s\"", DoubleQuoted), Token(" ", Neutral)])) == Scanner(12, Undefined, Undefined, Char('c'), Char(' '), "undefined", Word, Some(DoubleQuoted), [Token("if", Word), Token(" ", Neutral), Token("\"s\"", DoubleQuoted), Token(" ", Neutral), Token("// c", SlashComment)])
    ensures !Running(Scanner(12, Undefined, Undefined, Char('c'), Char(' '), "undefined", Word, Some(DoubleQuoted), [Token("if", Word), Token(" ", Neutral), Token("\"s\"", DoubleQuoted), Token(" ", Neutral), Token("// c", SlashComment)]))
  {
    assert Closes(text, Scanner(11, Undefined, Char('c'), Char(' '), Char('/'), "// c", SlashComment, Some(DoubleQuoted), [Token("if", Word), Token(" ", Neutral), Token("\"s\"", DoubleQuoted), Token(" ", Neutral)]));
  }

  // The text of the usage example in the comment above `parse`.
  lemma UsageExample()
    ensures Tokens("function test() { console.log(\"test\")}") == [Token("function", Word), Token(" ", Neutral), Token("test", Word), Token("(", Operator), Token(")", ClosingBrace), Token(" ", Neutral), Token("{", Operator), Token(" ", Neutral), Token("console", Word), Token(".", Operator), Token("log", Word), Token("(", Operator), Token("\"test\"", DoubleQuoted), Token(")", ClosingBrace), Token("}", Operator)]
  {
    var text := "function test() { console.log(\"test\")}";
    UsageExampleText1();
    UsageExampleText2();
    UsageExampleText3();
    UsageExampleText4();
    UsageExampleText5();
    UsageExampleRun1(text);
    UsageExampleRun2(text);
    UsageExampleRun3(text);
    UsageExampleRun4(text);
    UsageExampleRun5(text);
    UsageExampleRun6(text);
    UsageExampleRun7(text);
  }

  lemma UsageExampleText1()
    ensures var text := "function test() { console.log(\"test\")}";
            |text| == 38 && text[0] == 'f' && text[1] == 'u' && text[2] == 'n' && text[3] == 'c' && text[4] == 't' && text[5] == 'i' && text[6] == 'o' && text[7] == 'n'
  {
  }

  lemma UsageExampleText2()
    ensures var text := "function test() { console.log(\"test\")}";
            |text| == 38 && text[8] == ' ' && text[9] == 't' && text[10] == 'e' && text[11] == 's' && text[12] == 't' && text[13] == '(' && text[14] == ')' && text[15] == ' '
  {
  }

  lemma UsageExampleText3()
    ensures var text := "function test() { console.log(\"test\")}";
            |text| == 38 && text[16] == '{' && text[17] == ' ' && text[18] == 'c' && text[19] == 'o' && text[20] == 'n' && text[21] == 's' && text[22] == 'o' && text[23] == 'l'
  {
  }

  lemma UsageExampleText4()
    ensures var text := "function test() { console.log(\"test\")}";
            |text| == 38 && text[24] == 'e' && text[25] == '.' && text[26] == 'l' && text[27] == 'o' && text[28] == 'g' && text[29] == '(' && text[30] == '"' && text[31] == 't'
  {
  }

  lemma UsageExampleText5()
    ensures var text := "function test() { console.log(\"test\")}";
            |text| == 38 && text[32] == 'e' && text[33] == 's' && text[34] == 't' && text[35] == '"' && text[36] == ')' && text[37] == '}'
  {
  }

  lemma UsageExampleRun1(text: string)
    requires |text| == 38 && text[0] == 'f' && text[1] == 'u' && text[2] == 'n' && text[3] == 'c' && text[4] == 't' && text[5] == 'i' && text[6] == 'o' && text[7] == 'n' && text[8] == ' '
    ensures Run(text, Init(text)) == Run(text, Scanner(6, Char('o'), Char('i'), Char('t'), Char('c'), "functi", Word, None, []))
  {
    var s0 := Init(text);
    var s1 := Scanner(1, Char('u'), Char('f'), Marker, Undefined, "f", Word, None, []);
    var s2 := Scanner(2, Char('n'), Char('u'), Char('f'), Marker, "fu", Word, None, []);
    var s3 := Scanner(3, Char('c'), Char('n'), Char('u'), Char('f'), "fun", Word, None, []);
    var s4 := Scanner(4, Char('t'), Char('c'), Char('n'), Char('u'), "func", Word, None, []);
    var s5 := Scanner(5, Char('i'), Char('t'), Char('c'), Char('n'), "funct", Word, None, []);
    var s6 := Scanner(6, Char('o'), Char('i'), Char('t'), Char('c'), "functi", Word, None, []);
    UsageExampleStep1(text);
    RunStep(text, s0);
    UsageExampleStep2(text);
    RunStep(text, s1);
    UsageExampleStep3(text);
    RunStep(text, s2);
    UsageExampleStep4(text);
    RunStep(text, s3);
    UsageExampleStep5(text);
    RunStep(text, s4);
    UsageExampleStep6(text);
    RunStep(text, s5);
  }

  lemma UsageExampleRun2(text: string)
    requires |text| == 38 && text[3] == 'c' && text[4] == 't' && text[5] == 'i' && text[6] == 'o' && text[7] == 'n' && text[8] == ' ' && text[9] == 't' && text[10] == 'e' && text[11] == 's' && text[12] == 't' && text[13] == '(' && text[14] == ')'
    ensures Run(text, Scanner(6, Char('o'), Char('i'), Char('t'), Char('c'), "functi", Word, None, [])) == Run(text, Scanner(12, Char('t'), Char('s'), Char('e'), Char('t'), "tes", Word, Some(Word), [Token("function", Word), Token(" ", Neutral)]))
  {
    var s6 := Scanner(6, Char('o'), Char('i'), Char('t'), Char('c'), "functi", Word, None, []);
    var s7 := Scanner(7, Char('n'), Char('o'), Char('i'), Char('t'), "functio", Word, None, []);
    var s8 := Scanner(8, Char(' '), Char('n'), Char('o'), Char('i'), "function", Word, None, []);
    var s9 := Scanner(9, Char('t'), Char(' '), Char('n'), Char('o'), " ", Neutral, Some(Word), [Token("function", Word)]);
    var s10 := Scanner(10, Char('e'), Char('t'), Char(' '), Char('n'), "t", Word, Some(Word), [Token("function", Word), Token(" ", Neutral)]);
    var s11 := Scanner(11, Char('s'), Char('e'), Char('t'), Char(' '), "te", Word, Some(Word), [Token("function", Word), Token(" ", Neutral)]);
    var s12 := Scanner(12, Char('t'), Char('s'), Char('e'), Char('t'), "tes", Word, Some(Word), [Token("function", Word), Token(" ", Neutral)]);
    UsageExampleStep7(text);
    RunStep(text, s6);
    UsageExampleStep8(text);
    RunStep(text, s7);
    UsageExampleStep9(text);
    RunStep(text, s8);
    UsageExampleStep10(text);
    RunStep(text, s9);
    UsageExampleStep11(text);
    RunStep(text, s10);
    UsageExampleStep12(text);
    RunStep(text, s11);
  }

  lemma UsageExampleRun3(text: string)
    requires |text| == 38 && text[9] == 't' && text[10] == 'e' && text[11] == 's' && text[12] == 't' && text[13] == '(' && text[14] == ')' && text[15] == ' ' && text[16] == '{' && text[17] == ' ' && text[18] == 'c' && text[19] == 'o' && text[20] == 'n'
    ensures Run(text, Scanner(12, Char('t'), Char('s'), Char('e'), Char('t'), "tes", Word, Some(Word), [Token("function", Word), Token(" ", Neutral)])) == Run(text, Scanner(18, Char('c'), Char(' '), Char('{'), Char(' '), " ", Neutral, Some(Operator), [Token("function", Word), Token(" ", Neutral), Token("test", Word), Token("(", Operator), Token(")", ClosingBrace), Token(" ", Neutral), Token("{", Operator)]))
  {
    var s12 := Scanner(12, Char('t'), Char('s'), Char('e'), Char('t'), "tes", Word, Some(Word), [Token("function", Word), Token(" ", Neutral)]);
    var s13 := Scanner(13, Char('('), Char('t'), Char('s'), Char('e'), "test", Word, Some(Word), [Token("function", Word), Token(" ", Neutral)]);
    var s14 := Scanner(14, Char(')'), Char('('), Char('t'), Char('s'), "(", Operator, Some(Word), [Token("function", Word), Token(" ", Neutral), Token("test", Word)]);
    var s15 := Scanner(15, Char(' '), Char(')'), Char('('), Char('t'), ")", ClosingBrace, Some(Operator), [Token("function", Word), Token(" ", Neutral), Token("test", Word), Token("(", Operator)]);
    var s16 := Scanner(16, Char('{'), Char(' '), Char(')'), Char('('), " ", Neutral, Some(ClosingBrace), [Token("function", Word), Token(" ", Neutral), Token("test", Word), Token("(", Operator), Token(")", ClosingBrace)]);
    var s17 := Scanner(17, Char(' '), Char('{'), Char(' '), Char(')'), "{", Operator, Some(ClosingBrace), [Token("function", Word), Token(" ", Neutral), Token("test", Word), Token("(", Operator), Token(")", ClosingBrace), Token(" ", Neutral)]);
    var s18 := Scanner(18, Char('c'), Char(' '), Char('{'), Char(' '), " ", Neutral, Some(Operator), [Token("function", Word), Token(" ", Neutral), Token("test", Word), Token("(", Operator), Token(")", ClosingBrace), Token(" ", Neutral), Token("{", Operator)]);
    UsageExampleStep13(text);
    RunStep(text, s12);
    UsageExampleStep14(text);
    RunStep(text, s13);
    UsageExampleStep15(text);
    RunStep(text, s14);
    UsageExampleStep16(text);
    RunStep(text, s15);
    UsageExampleStep17(text);
    RunStep(text, s16);
    UsageExampleStep18(text);
    RunStep(text, s17);
  }

  lemma UsageExampleRun4(text: string)
    requires |text| == 38 && text[15] == ' ' && text[16] == '{' && text[17] == ' ' && text[18] == 'c' && text[19] == 'o' && text[20] == 'n' && text[21] == 's' && text[22] == 'o' && text[23] == 'l' && text[24] == 'e' && text[25] == '.' && text[26] == 'l'
    ensures Run(text, Scanner(18, Char('c'), Char(' '), Char('{'), Char(' '), " ", Neutral, Some(Operator), [Token("function", Word), Token(" ", Neutral), Token("test", Word), Token("(", Operator), Token(")", ClosingBrace), Token(" ", Neutral), Token("{", Operator)])) == Run(text, Scanner(24, Char('e'), Char('l'), Char('o'), Char('s'), "consol", Word, Some(Operator), [Token("function", Word), Token(" ", Neutral), Token("test", Word), Token("(", Operator), Token(")", ClosingBrace), Token(" ", Neutral), Token("{", Operator), Token(" ", Neutral)]))
  {
    var s18 := Scanner(18, Char('c'), Char(' '), Char('{'), Char(' '), " ", Neutral, Some(Operator), [Token("function", Word), Token(" ", Neutral), Token("test", Word), Token("(", Operator), Token(")", ClosingBrace), Token(" ", Neutral), Token("{", Operator)]);
    var s19 := Scanner(19, Char('o'), Char('c'), Char(' '), Char('{'), "c", Word, Some(Operator), [Token("function", Word), Token(" ", Neutral), Token("test", Word), Token("(", Operator), Token(")", ClosingBrace), Token(" ", Neutral), Token("{", Operator), Token(" ", Neutral)]);
    var s20 := Scanner(20, Char('n'), Char('o'), Char('c'), Char(' '), "co", Word, Some(Operator), [Token("function", Word), Token(" ", Neutral), Token("test", Word), Token("(", Operator), Token(")", ClosingBrace), Token(" ", Neutral), Token("{", Operator), Token(" ", Neutral)]);
    var s21 := Scanner(21, Char('s'), Char('n'), Char('o'), Char('c'), "con", Word, Some(Operator), [Token("function", Word), Token(" ", Neutral), Token("test", Word), Token("(", Operator), Token(")", ClosingBrace), Token(" ", Neutral), Token("{", Operator), Token(" ", Neutral)]);
    var s22 := Scanner(22, Char('o'), Char('s'), Char('n'), Char('o'), "cons", Word, Some(Operator), [Token("function", Word), Token(" ", Neutral), Token("test", Word), Token("(", Operator), Token(")", ClosingBrace), Token(" ", Neutral), Token("{", Operator), Token(" ", Neutral)]);
    var s23 := Scanner(23, Char('l'), Char('o'), Char('s'), Char('n'), "conso", Word, Some(Operator), [Token("function", Word), Token(" ", Neutral), Token("test", Word), Token("(", Operator), Token(")", ClosingBrace), Token(" ", Neutral), Token("{", Operator), Token(" ", Neutral)]);
    var s24 := Scanner(24, Char('e'), Char('l'), Char('o'), Char('s'), "consol", Word, Some(Operator), [Token("function", Word), Token(" ", Neutral), Token("test", Word), Token("(", Operator), Token(")", ClosingBrace), Token(" ", Neutral), Token("{", Operator), Token(" ", Neutral)]);
    UsageExampleStep19(text);
    RunStep(text, s18);
    UsageExampleStep20(text);
    RunStep(text, s19);
    UsageExampleStep21(text);
    RunStep(text, s20);
    UsageExampleStep22(text);
    RunStep(text, s21);
    UsageExampleStep23(text);
    RunStep(text, s22);
    UsageExampleStep24(text);
    RunStep(text, s23);
  }

  lemma UsageExampleRun5(text: string)
    requires |text| == 38 && text[21] == 's' && text[22] == 'o' && text[23] == 'l' && text[24] == 'e' && text[25] == '.' && text[26] == 'l' && text[27] == 'o' && text[28] == 'g' && text[29] == '(' && text[30] == '"' && text[31] == 't' && text[32] == 'e'
    ensures Run(text, Scanner(24, Char('e'), Char('l'), Char('o'), Char('s'), "consol", Word, Some(Operator), [Token("function", Word), Token(" ", Neutral), Token("test", Word), Token("(", Operator), Token(")", ClosingBrace), Token(" ", Neutral), Token("{", Operator), Token(" ", Neutral)])) == Run(text, Scanner(30, Char('"'), Char('('), Char('g'), Char('o'), "(", Operator, Some(Word), [Token("function", Word), Token(" ", Neutral), Token("test", Word), Token("(", Operator), Token(")", ClosingBrace), Token(" ", Neutral), Token("{", Operator), Token(" ", Neutral), Token("console", Word), Token(".", Operator), Token("log", Word)]))
  {
    var s24 := Scanner(24, Char('e'), Char('l'), Char('o'), Char('s'), "consol", Word, Some(Operator), [Token("function", Word), Token(" ", Neutral), Token("test", Word), Token("(", Operator), Token(")", ClosingBrace), Token(" ", Neutral), Token("{", Operator), Token(" ", Neutral)]);
    var s25 := Scanner(25, Char('.'), Char('e'), Char('l'), Char('o'), "console", Word, Some(Operator), [Token("function", Word), Token(" ", Neutral), Token("test", Word), Token("(", Operator), Token(")", ClosingBrace), Token(" ", Neutral), Token("{", Operator), Token(" ", Neutral)]);
    var s26 := Scanner(26, Char('l'), Char('.'), Char('e'), Char('l'), ".", Operator, Some(Word), [Token("function", Word), Token(" ", Neutral), Token("test", Word), Token("(", Operator), Token(")", ClosingBrace), Token(" ", Neutral), Token("{", Operator), Token(" ", Neutral), Token("console", Word)]);
    var s27 := Scanner(27, Char('o'), Char('l'), Char('.'), Char('e'), "l", Word, Some(Operator), [Token("function", Word), Token(" ", Neutral), Token("test", Word), Token("(", Operator), Token(")", ClosingBrace), Token(" ", Neutral), Token("{", Operator), Token(" ", Neutral), Token("console", Word), Token(".", Operator)]);
    var s28 := Scanner(28, Char('g'), Char('o'), Char('l'), Char('.'), "lo", Word, Some(Operator), [Token("function", Word), Token(" ", Neutral), Token("test", Word), Token("(", Operator), Token(")", ClosingBrace), Token(" ", Neutral), Token("{", Operator), Token(" ", Neutral), Token("console", Word), Token(".", Operator)]);
    var s29 := Scanner(29, Char('('), Char('g'), Char('o'), Char('l'), "log", Word, Some(Operator), [Token("function", Word), Token(" ", Neutral), Token("test", Word), Token("(", Operator), Token(")", ClosingBrace), Token(" ", Neutral), Token("{", Operator), Token(" ", Neutral), Token("console", Word), Token(".", Operator)]);
    var s30 := Scanner(30, Char('"'), Char('('), Char('g'), Char('o'), "(", Operator, Some(Word), [Token("function", Word), Token(" ", Neutral), Token("test", Word), Token("(", Operator), Token(")", ClosingBrace), Token(" ", Neutral), Token("{", Operator), Token(" ", Neutral), Token("console", Word), Token(".", Operator), Token("log", Word)]);
    UsageExampleStep25(text);
    RunStep(text, s24);
    UsageExampleStep26(text);
    RunStep(text, s25);
    UsageExampleStep27(text);
    RunStep(text, s26);
    UsageExampleStep28(text);
    RunStep(text, s27);
    UsageExampleStep29(text);
    RunStep(text, s28);
    UsageExampleStep30(text);
    RunStep(text, s29);
  }

  lemma UsageExampleRun6(text: string)
    requires |text| == 38 && text[27] == 'o' && text[28] == 'g' && text[29] == '(' && text[30] == '"' && text[31] == 't' && text[32] == 'e' && text[33] == 's' && text[34] == 't' && text[35] == '"' && text[36] == ')' && text[37] == '}'
    ensures Run(text, Scanner(30, Char('"'), Char('('), Char('g'), Char('o'), "(", Operator, Some(Word), [Token("function", Word), Token(" ", Neutral), Token("test", Word), Token("(", Operator), Token(")", ClosingBrace), Token(" ", Neutral), Token("{", Operator), Token(" ", Neutral), Token("console", Word), Token(".", Operator), Token("log", Word)])) == Run(text, Scanner(36, Char(')'), Char('"'), Char('t'), Char('s'), "\"test\"", DoubleQuoted, Some(Operator), [Token("function", Word), Token(" ", Neutral), Token("test", Word), Token("(", Operator), Token(")", ClosingBrace), Token(" ", Neutral), Token("{", Operator), Token(" ", Neutral), Token("console", Word), Token(".", Operator), Token("log", Word), Token("(", Operator)]))
  {
    var s30 := Scanner(30, Char('"'), Char('('), Char('g'), Char('o'), "(", Operator, Some(Word), [Token("function", Word), Token(" ", Neutral), Token("test", Word), Token("(", Operator), Token(")", ClosingBrace), Token(" ", Neutral), Token("{", Operator), Token(" ", Neutral), Token("console", Word), Token(".", Operator), Token("log", Word)]);
    var s31 := Scanner(31, Char('t'), Char('"'), Char('('), Char('g'), "\"", DoubleQuoted, Some(Operator), [Token("function", Word), Token(" ", Neutral), Token("test", Word), Token("(", Operator), Token(")", ClosingBrace), Token(" ", Neutral), Token("{", Operator), Token(" ", Neutral), Token("console", Word), Token(".", Operator), Token("log", Word), Token("(", Operator)]);
    var s32 := Scanner(32, Char('e'), Char('t'), Char('"'), Char('('), "\"t", DoubleQuoted, Some(Operator), [Token("function", Word), Token(" ", Neutral), Token("test", Word), Token("(", Operator), Token(")", ClosingBrace), Token(" ", Neutral), Token("{", Operator), Token(" ", Neutral), Token("console", Word), Token(".", Operator), Token("log", Word), Token("(", Operator)]);
    var s33 := Scanner(33, Char('s'), Char('e'), Char('t'), Char('"'), "\"te", DoubleQuoted, Some(Operator), [Token("function", Word), Token(" ", Neutral), Token("test", Word), Token("(", Operator), Token(")", ClosingBrace), Token(" ", Neutral), Token("{", Operator), Token(" ", Neutral), Token("console", Word), Token(".", Operator), Token("log", Word), Token("(", Operator)]);
    var s34 := Scanner(34, Char('t'), Char('s'), Char('e'), Char('t'), "\"tes", DoubleQuoted, Some(Operator), [Token("function", Word), Token(" ", Neutral), Token("test", Word), Token("(", Operator), Token(")", ClosingBrace), Token(" ", Neutral), Token("{", Operator), Token(" ", Neutral), Token("console", Word), Token(".", Operator), Token("log", Word), Token("(", Operator)]);
    var s35 := Scanner(35, Char('"'), Char('t'), Char('s'), Char('e'), "\"test", DoubleQuoted, Some(Operator), [Token("function", Word), Token(" ", Neutral), Token("test", Word), Token("(", Operator), Token(")", ClosingBrace), Token(" ", Neutral), Token("{", Operator), Token(" ", Neutral), Token("console", Word), Token(".", Operator), Token("log", Word), Token("(", Operator)]);
    var s36 := Scanner(36, Char(')'), Char('"'), Char('t'), Char('s'), "\"test\"", DoubleQuoted, Some(Operator), [Token("function", Word), Token(" ", Neutral), Token("test", Word), Token("(", Operator), Token(")", ClosingBrace), Token(" ", Neutral), Token("{", Operator), Token(" ", Neutral), Token("console", Word), Token(".", Operator), Token("log", Word), Token("(", Operator)]);
    UsageExampleStep31(text);
    RunStep(text, s30);
    UsageExampleStep32(text);
    RunStep(text, s31);
    UsageExampleStep33(text);
    RunStep(text, s32);
    UsageExampleStep34(text);
    RunStep(text, s33);
    UsageExampleStep35(text);
    RunStep(text, s34);
    UsageExampleStep36(text);
    RunStep(text, s35);
  }

  lemma UsageExampleRun7(text: string)
    requires |text| == 38 && text[33] == 's' && text[34] == 't' && text[35] == '"' && text[36] == ')' && text[37] == '}'
    ensures Run(text, Scanner(36, Char(')'), Char('"'), Char('t'), Char('s'), "\"test\"", DoubleQuoted, Some(Operator), [Token("function", Word), Token(" ", Neutral), Token("test", Word), Token("(", Operator), Token(")", ClosingBrace), Token(" ", Neutral), Token("{", Operator), Token(" ", Neutral), Token("console", Word), Token(".", Operator), Token("log", Word), Token("(", Operator)])) == Scanner(39, Undefined, Undefined, Char('}'), Char(')'), "undefined", Word, Some(Operator), [Token("function", Word), Token(" ", Neutral), Token("test", Word), Token("(", Operator), Token(")", ClosingBrace), Token(" ", Neutral), Token("{", Operator), Token(" ", Neutral), Token("console", Word), Token(".", Operator), Token("log", Word), Token("(", Operator), Token("\"test\"", DoubleQuoted), Token(")", ClosingBrace), Token("}", Operator)])
  {
    var s36 := Scanner(36, Char(')'), Char('"'), Char('t'), Char('s'), "\"test\"", DoubleQuoted, Some(Operator), [Token("function", Word), Token(" ", Neutral), Token("test", Word), Token("(", Operator), Token(")", ClosingBrace), Token(" ", Neutral), Token("{", Operator), Token(" ", Neutral), Token("console", Word), Token(".", Operator), Token("log", Word), Token("(", Operator)]);
    var s37 := Scanner(37, Char('}'), Char(')'), Char('"'), Char('t'), ")", ClosingBrace, Some(DoubleQuoted), [Token("function", Word), Token(" ", Neutral), Token("test", Word), Token("(", Operator), Token(")", ClosingBrace), Token(" ", Neutral), Token("{", Operator), Token(" ", Neutral), Token("console", Word), Token(".", Operator), Token("log", Word), Token("(", Operator), Token("\"test\"", DoubleQuoted)]);
    var s38 := Scanner(38, Undefined, Char('}'), Char(')'), Char('"'), "}", Operator, Some(ClosingBrace), [Token("function", Word), Token(" ", Neutral), Token("test", Word), Token("(", Operator), Token(")", ClosingBrace), Token(" ", Neutral), Token("{", Operator), Token(" ", Neutral), Token("console", Word), Token(".", Operator), Token("log", Word), Token("(", Operator), Token("\"test\"", DoubleQuoted), Token(")", ClosingBrace)]);
    var s39 := Scanner(39, Undefined, Undefined, Char('}'), Char(')'), "undefined", Word, Some(Operator), [Token("function", Word), Token(" ", Neutral), Token("test", Word), Token("(", Operator), Token(")", ClosingBrace), Token(" ", Neutral), Token("{", Operator), Token(" ", Neutral), Token("console", Word), Token(".", Operator), Token("log", Word), Token("(", Operator), Token("\"test\"", DoubleQuoted), Token(")", ClosingBrace), Token("}", Operator)]);
    UsageExampleStep37(text);
    RunStep(text, s36);
    UsageExampleStep38(text);
    RunStep(text, s37);
    UsageExampleStep39(text);
    RunStep(text, s38);
  }

  lemma UsageExampleStep1(text: string)
    requires |text| == 38 && text[0] == 'f' && text[1] == 'u' && text[2] == 'n' && text[3] == 'c'
    ensures Sane(text, Init(text)) && Running(Init(text))
    ensures Advance(text, Init(text)) == Scanner(1, Char('u'), Char('f'), Marker, Undefined, "f", Word, None, [])
  {
    assert Closes(text, Init(text));
  }

  lemma UsageExampleStep2(text: string)
    requires |text| == 38 && text[0] == 'f' && text[1] == 'u' && text[2] == 'n' && text[3] == 'c' && text[4] == 't'
    ensures Sane(text, Scanner(1, Char('u'), Char('f'), Marker, Undefined, "f", Word, None, [])) && Running(Scanner(1, Char('u'), Char('f'), Marker, Undefined, "f", Word, None, []))
    ensures Advance(text, Scanner(1, Char('u'), Char('f'), Marker, Undefined, "f", Word, None, [])) == Scanner(2, Char('n'), Char('u'), Char('f'), Marker, "fu", Word, None, [])
  {
    assert !Closes(text, Scanner(1, Char('u'), Char('f'), Marker, Undefined, "f", Word, None, []));
  }

  lemma UsageExampleStep3(text: string)
    requires |text| == 38 && text[0] == 'f' && text[1] == 'u' && text[2] == 'n' && text[3] == 'c' && text[4] == 't' && text[5] == 'i'
    ensures Sane(text, Scanner(2, Char('n'), Char('u'), Char('f'), Marker, "fu", Word, None, [])) && Running(Scanner(2, Char('n'), Char('u'), Char('f'), Marker, "fu", Word, None, []))
    ensures Advance(text, Scanner(2, Char('n'), Char('u'), Char('f'), Marker, "fu", Word, None, [])) == Scanner(3, Char('c'), Char('n'), Char('u'), Char('f'), "fun", Word, None, [])
  {
    assert !Closes(text, Scanner(2, Char('n'), Char('u'), Char('f'), Marker, "fu", Word, None, []));
  }

  lemma UsageExampleStep4(text: string)
    requires |text| == 38 && text[0] == 'f' && text[1] == 'u' && text[2] == 'n' && text[3] == 'c' && text[4] == 't' && text[5] == 'i' && text[6] == 'o'
    ensures Sane(text, Scanner(3, Char('c'), Char('n'), Char('u'), Char('f'), "fun", Word, None, [])) && Running(Scanner(3, Char('c'), Char('n'), Char('u'), Char('f'), "fun", Word, None, []))
    ensures Advance(text, Scanner(3, Char('c'), Char('n'), Char('u'), Char('f'), "fun", Word, None, [])) == Scanner(4, Char('t'), Char('c'), Char('n'), Char('u'), "func", Word, None, [])
  {
    assert !Closes(text, Scanner(3, Char('c'), Char('n'), Char('u'), Char('f'), "fun", Word, None, []));
  }

  lemma UsageExampleStep5(text: string)
    requires |text| == 38 && text[1] == 'u' && text[2] == 'n' && text[3] == 'c' && text[4] == 't' && text[5] == 'i' && text[6] == 'o' && text[7] == 'n'
    ensures Sane(text, Scanner(4, Char('t'), Char('c'), Char('n'), Char('u'), "func", Word, None, [])) && Running(Scanner(4, Char('t'), Char('c'), Char('n'), Char('u'), "func", Word, None, []))
    ensures Advance(text, Scanner(4, Char('t'), Char('c'), Char('n'), Char('u'), "func", Word, None, [])) == Scanner(5, Char('i'), Char('t'), Char('c'), Char('n'), "funct", Word, None, [])
  {
    assert !Closes(text, Scanner(4, Char('t'), Char('c'), Char('n'), Char('u'), "func", Word, None, []));
  }

  lemma UsageExampleStep6(text: string)
    requires |text| == 38 && text[2] == 'n' && text[3] == 'c' && text[4] == 't' && text[5] == 'i' && text[6] == 'o' && text[7] == 'n' && text[8] == ' '
    ensures Sane(text, Scanner(5, Char('i'), Char('t'), Char('c'), Char('n'), "funct", Word, None, [])) && Running(Scanner(5, Char('i'), Char('t'), Char('c'), Char('n'), "funct", Word, None, []))
    ensures Advance(text, Scanner(5, Char('i'), Char('t'), Char('c'), Char('n'), "funct", Word, None, [])) == Scanner(6, Char('o'), Char('i'), Char('t'), Char('c'), "functi", Word, None, [])
  {
    assert !Closes(text, Scanner(5, Char('i'), Char('t'), Char('c'), Char('n'), "funct", Word, None, []));
  }

  lemma UsageExampleStep7(text: string)
    requires |text| == 38 && text[3] == 'c' && text[4] == 't' && text[5] == 'i' && text[6] == 'o' && text[7] == 'n' && text[8] == ' ' && text[9] == 't'
    ensures Sane(text, Scanner(6, Char('o'), Char('i'), Char('t'), Char('c'), "functi", Word, None, [])) && Running(Scanner(6, Char('o'), Char('i'), Char('t'), Char('c'), "functi", Word, None, []))
    ensures Advance(text, Scanner(6, Char('o'), Char('i'), Char('t'), Char('c'), "functi", Word, None, [])) == Scanner(7, Char('n'), Char('o'), Char('i'), Char('t'), "functio", Word, None, [])
  {
    assert !Closes(text, Scanner(6, Char('o'), Char('i'), Char('t'), Char('c'), "functi", Word, None, []));
  }

  lemma UsageExampleStep8(text: string)
    requires |text| == 38 && text[4] == 't' && text[5] == 'i' && text[6] == 'o' && text[7] == 'n' && text[8] == ' ' && text[9] == 't' && text[10] == 'e'
    ensures Sane(text, Scanner(7, Char('n'), Char('o'), Char('i'), Char('t'), "functio", Word, None, [])) && Running(Scanner(7, Char('n'), Char('o'), Char('i'), Char('t'), "functio", Word, None, []))
    ensures Advance(text, Scanner(7, Char('n'), Char('o'), Char('i'), Char('t'), "functio", Word, None, [])) == Scanner(8, Char(' '), Char('n'), Char('o'), Char('i'), "function", Word, None, [])
  {
    assert !Closes(text, Scanner(7, Char('n'), Char('o'), Char('i'), Char('t'), "functio", Word, None, []));
  }

  lemma UsageExampleStep9(text: string)
    requires |text| == 38 && text[5] == 'i' && text[6] == 'o' && text[7] == 'n' && text[8] == ' ' && text[9] == 't' && text[10] == 'e' && text[11] == 's'
    ensures Sane(text, Scanner(8, Char(' '), Char('n'), Char('o'), Char('i'), "function", Word, None, [])) && Running(Scanner(8, Char(' '), Char('n'), Char('o'), Char('i'), "function", Word, None, []))
    ensures Advance(text, Scanner(8, Char(' '), Char('n'), Char('o'), Char('i'), "function", Word, None, [])) == Scanner(9, Char('t'), Char(' '), Char('n'), Char('o'), " ", Neutral, Some(Word), [Token("function", Word)])
  {
    assert Closes(text, Scanner(8, Char(' '), Char('n'), Char('o'), Char('i'), "function", Word, None, []));
  }

  lemma UsageExampleStep10(text: string)
    requires |text| == 38 && text[6] == 'o' && text[7] == 'n' && text[8] == ' ' && text[9] == 't' && text[10] == 'e' && text[11] == 's' && text[12] == 't'
    ensures Sane(text, Scanner(9, Char('t'), Char(' '), Char('n'), Char('o'), " ", Neutral, Some(Word), [Token("function", Word)])) && Running(Scanner(9, Char('t'), Char(' '), Char('n'), Char('o'), " ", Neutral, Some(Word), [Token("function", Word)]))
    ensures Advance(text, Scanner(9, Char('t'), Char(' '), Char('n'), Char('o'), " ", Neutral, Some(Word), [Token("function", Word)])) == Scanner(10, Char('e'), Char('t'), Char(' '), Char('n'), "t", Word, Some(Word), [Token("function", Word), Token(" ", Neutral)])
  {
    assert Closes(text, Scanner(9, Char('t'), Char(' '), Char('n'), Char('o'), " ", Neutral, Some(Word), [Token("function", Word)]));
  }

  lemma UsageExampleStep11(text: string)
    requires |text| == 38 && text[7] == 'n' && text[8] == ' ' && text[9] == 't' && text[10] == 'e' && text[11] == 's' && text[12] == 't' && text[13] == '('
    ensures Sane(text, Scanner(10, Char('e'), Char('t'), Char(' '), Char('n'), "t", Word, Some(Word), [Token("function", Word), Token(" ", Neutral)])) && Running(Scanner(10, Char('e'), Char('t'), Char(' '), Char('n'), "t", Word, Some(Word), [Token("function", Word), Token(" ", Neutral)]))
    ensures Advance(text, Scanner(10, Char('e'), Char('t'), Char(' '), Char('n'), "t", Word, Some(Word), [Token("function", Word), Token(" ", Neutral)])) == Scanner(11, Char('s'), Char('e'), Char('t'), Char(' '), "te", Word, Some(Word), [Token("function", Word), Token(" ", Neutral)])
  {
    assert !Closes(text, Scanner(10, Char('e'), Char('t'), Char(' '), Char('n'), "t", Word, Some(Word), [Token("function", Word), Token(" ", Neutral)]));
  }

  lemma UsageExampleStep12(text: string)
    requires |text| == 38 && text[8] == ' ' && text[9] == 't' && text[10] == 'e' && text[11] == 's' && text[12] == 't' && text[13] == '(' && text[14] == ')'
    ensures Sane(text, Scanner(11, Char('s'), Char('e'), Char('t'), Char(' '), "te", Word, Some(Word), [Token("function", Word), Token(" ", Neutral)])) && Running(Scanner(11, Char('s'), Char('e'), Char('t'), Char(' '), "te", Word, Some(Word), [Token("function", Word), Token(" ", Neutral)]))
    ensures Advance(text, Scanner(11, Char('s'), Char('e'), Char('t'), Char(' '), "te", Word, Some(Word), [Token("function", Word), Token(" ", Neutral)])) == Scanner(12, Char('t'), Char('s'), Char('e'), Char('t'), "tes", Word, Some(Word), [Token("function", Word), Token(" ", Neutral)])
  {
    assert !Closes(text, Scanner(11, Char('s'), Char('e'), Char('t'), Char(' '), "te", Word, Some(Word), [Token("function", Word), Token(" ", Neutral)]));
  }

  lemma UsageExampleStep13(text: string)
    requires |text| == 38 && text[9] == 't' && text[10] == 'e' && text[11] == 's' && text[12] == 't' && text[13] == '(' && text[14] == ')' && text[15] == ' '
    ensures Sane(text, Scanner(12, Char('t'), Char('s'), Char('e'), Char('t'), "tes", Word, Some(Word), [Token("function", Word), Token(" ", Neutral)])) && Running(Scanner(12, Char('t'), Char('s'), Char('e'), Char('t'), "tes", Word, Some(Word), [Token("function", Word), Token(" ", Neutral)]))
    ensures Advance(text, Scanner(12, Char('t'), Char('s'), Char('e'), Char('t'), "tes", Word, Some(Word), [Token("function", Word), Token(" ", Neutral)])) == Scanner(13, Char('('), Char('t'), Char('s'), Char('e'), "test", Word, Some(Word), [Token("function", Word), Token(" ", Neutral)])
  {
    assert !Closes(text, Scanner(12, Char('t'), Char('s'), Char('e'), Char('t'), "tes", Word, Some(Word), [Token("function", Word), Token(" ", Neutral)]));
  }

  lemma UsageExampleStep14(text: string)
    requires |text| == 38 && text[10] == 'e' && text[11] == 's' && text[12] == 't' && text[13] == '(' && text[14] == ')' && text[15] == ' ' && text[16] == '{'
    ensures Sane(text, Scanner(13, Char('('), Char('t'), Char('s'), Char('e'), "test", Word, Some(Word), [Token("function", Word), Token(" ", Neutral)])) && Running(Scanner(13, Char('('), Char('t'), Char('s'), Char('e'), "test", Word, Some(Word), [Token("function", Word), Token(" ", Neutral)]))
    ensures Advance(text, Scanner(13, Char('('), Char('t'), Char('s'), Char('e'), "test", Word, Some(Word), [Token("function", Word), Token(" ", Neutral)])) == Scanner(14, Char(')'), Char('('), Char('t'), Char('s'), "(", Operator, Some(Word), [Token("function", Word), Token(" ", Neutral), Token("test", Word)])
  {
    assert Closes(text, Scanner(13, Char('('), Char('t'), Char('s'), Char('e'), "test", Word, Some(Word), [Token("function", Word), Token(" ", Neutral)]));
  }

  lemma UsageExampleStep15(text: string)
    requires |text| == 38 && text[11] == 's' && text[12] == 't' && text[13] == '(' && text[14] == ')' && text[15] == ' ' && text[16] == '{' && text[17] == ' '
    ensures Sane(text, Scanner(14, Char(')'), Char('('), Char('t'), Char('s'), "(", Operator, Some(Word), [Token("function", Word), Token(" ", Neutral), Token("test", Word)])) && Running(Scanner(14, Char(')'), Char('('), Char('t'), Char('s'), "(", Operator, Some(Word), [Token("function", Word), Token(" ", Neutral), Token("test", Word)]))
    ensures Advance(text, Scanner(14, Char(')'), Char('('), Char('t'), Char('s'), "(", Operator, Some(Word), [Token("function", Word), Token(" ", Neutral), Token("test", Word)])) == Scanner(15, Char(' '), Char(')'), Char('('), Char('t'), ")", ClosingBrace, Some(Operator), [Token("function", Word), Token(" ", Neutral), Token("test", Word), Token("(", Operator)])
  {
    assert Closes(text, Scanner(14, Char(')'), Char('('), Char('t'), Char('s'), "(", Operator, Some(Word), [Token("function", Word), Token(" ", Neutral), Token("test", Word)]));
  }

  lemma UsageExampleStep16(text: string)
    requires |text| == 38 && text[12] == 't' && text[13] == '(' && text[14] == ')' && text[15] == ' ' && text[16] == '{' && text[17] == ' ' && text[18] == 'c'
    ensures Sane(text, Scanner(15, Char(' '), Char(')'), Char('('), Char('t'), ")", ClosingBrace, Some(Operator), [Token("function", Word), Token(" ", Neutral), Token("test", Word), Token("(", Operator)])) && Running(Scanner(15, Char(' '), Char(')'), Char('('), Char('t'), ")", ClosingBrace, Some(Operator), [Token("function", Word), Token(" ", Neutral), Token("test", Word), Token("(", Operator)]))
    ensures Advance(text, Scanner(15, Char(' '), Char(')'), Char('('), Char('t'), ")", ClosingBrace, Some(Operator), [Token("function", Word), Token(" ", Neutral), Token("test", Word), Token("(", Operator)])) == Scanner(16, Char('{'), Char(' '), Char(')'), Char('('), " ", Neutral, Some(ClosingBrace), [Token("function", Word), Token(" ", Neutral), Token("test", Word), Token("(", Operator), Token(")", ClosingBrace)])
  {
    assert Closes(text, Scanner(15, Char(' '), Char(')'), Char('('), Char('t'), ")", ClosingBrace, Some(Operator), [Token("function", Word), Token(" ", Neutral), Token("test", Word), Token("(", Operator)]));
  }

  lemma UsageExampleStep17(text: string)
    requires |text| == 38 && text[13] == '(' && text[14] == ')' && text[15] == ' ' && text[16] == '{' && text[17] == ' ' && text[18] == 'c' && text[19] == 'o'
    ensures Sane(text, Scanner(16, Char('{'), Char(' '), Char(')'), Char('('), " ", Neutral, Some(ClosingBrace), [Token("function", Word), Token(" ", Neutral), Token("test", Word), Token("(", Operator), Token(")", ClosingBrace)])) && Running(Scanner(16, Char('{'), Char(' '), Char(')'), Char('('), " ", Neutral, Some(ClosingBrace), [Token("function", Word), Token(" ", Neutral), Token("test", Word), Token("(", Operator), Token(")", ClosingBrace)]))
    ensures Advance(text, Scanner(16, Char('{'), Char(' '), Char(')'), Char('('), " ", Neutral, Some(ClosingBrace), [Token("function", Word), Token(" ", Neutral), Token("test", Word), Token("(", Operator), Token(")", ClosingBrace)])) == Scanner(17, Char(' '), Char('{'), Char(' '), Char(')'), "{", Operator, Some(ClosingBrace), [Token("function", Word), Token(" ", Neutral), Token("test", Word), Token("(", Operator), Token(")", ClosingBrace), Token(" ", Neutral)])
  {
    assert Closes(text, Scanner(16, Char('{'), Char(' '), Char(')'), Char('('), " ", Neutral, Some(ClosingBrace), [Token("function", Word), Token(" ", Neutral), Token("test", Word), Token("(", Operator), Token(")", ClosingBrace)]));
  }

  lemma UsageExampleStep18(text: string)
    requires |text| == 38 && text[14] == ')' && text[15] == ' ' && text[16] == '{' && text[17] == ' ' && text[18] == 'c' && text[19] == 'o' && text[20] == 'n'
    ensures Sane(text, Scanner(17, Char(' '), Char('{'), Char(' '), Char(')'), "{", Operator, Some(ClosingBrace), [Token("function", Word), Token(" ", Neutral), Token("test", Word), Token("(", Operator), Token(")", ClosingBrace), Token(" ", Neutral)])) && Running(Scanner(17, Char(' '), Char('{'), Char(' '), Char(')'), "{", Operator, Some(ClosingBrace), [Token("function", Word), Token(" ", Neutral), Token("test", Word), Token("(", Operator), Token(")", ClosingBrace), Token(" ", Neutral)]))
    ensures Advance(text, Scanner(17, Char(' '), Char('{'), Char(' '), Char(')'), "{", Operator, Some(ClosingBrace), [Token("function", Word), Token(" ", Neutral), Token("test", Word), Token("(", Operator), Token(")", ClosingBrace), Token(" ", Neutral)])) == Scanner(18, Char('c'), Char(' '), Char('{'), Char(' '), " ", Neutral, Some(Operator), [Token("function", Word), Token(" ", Neutral), Token("test", Word), Token("(", Operator), Token(")", ClosingBrace), Token(" ", Neutral), Token("{", Operator)])
  {
    assert Closes(text, Scanner(17, Char(' '), Char('{'), Char(' '), Char(')'), "{", Operator, Some(ClosingBrace), [Token("function", Word), Token(" ", Neutral), Token("test", Word), Token("(", Operator), Token(")", ClosingBrace), Token(" ", Neutral)]));
  }

  lemma UsageExampleStep19(text: string)
    requires |text| == 38 && text[15] == ' ' && text[16] == '{' && text[17] == ' ' && text[18] == 'c' && text[19] == 'o' && text[20] == 'n' && text[21] == 's'
    ensures Sane(text, Scanner(18, Char('c'), Char(' '), Char('{'), Char(' '), " ", Neutral, Some(Operator), [Token("function", Word), Token(" ", Neutral), Token("test", Word), Token("(", Operator), Token(")", ClosingBrace), Token(" ", Neutral), Token("{", Operator)])) && Running(Scanner(18, Char('c'), Char(' '), Char('{'), Char(' '), " ", Neutral, Some(Operator), [Token("function", Word), Token(" ", Neutral), Token("test", Word), Token("(", Operator), Token(")", ClosingBrace), Token(" ", Neutral), Token("{", Operator)]))
    ensures Advance(text, Scanner(18, Char('c'), Char(' '), Char('{'), Char(' '), " ", Neutral, Some(Operator), [Token("function", Word), Token(" ", Neutral), Token("test", Word), Token("(", Operator), Token(")", ClosingBrace), Token(" ", Neutral), Token("{", Operator)])) == Scanner(19, Char('o'), Char('c'), Char(' '), Char('{'), "c", Word, Some(Operator), [Token("function", Word), Token(" ", Neutral), Token("test", Word), Token("(", Operator), Token(")", ClosingBrace), Token(" ", Neutral), Token("{", Operator), Token(" ", Neutral)])
  {
    assert Closes(text, Scanner(18, Char('c'), Char(' '), Char('{'), Char(' '), " ", Neutral, Some(Operator), [Token("function", Word), Token(" ", Neutral), Token("test", Word), Token("(", Operator), Token(")", ClosingBrace), Token(" ", Neutral), Token("{", Operator)]));
  }

  lemma UsageExampleStep20(text: string)
    requires |text| == 38 && text[16] == '{' && text[17] == ' ' && text[18] == 'c' && text[19] == 'o' && text[20] == 'n' && text[21] == 's' && text[22] == 'o'
    ensures Sane(text, Scanner(19, Char('o'), Char('c'), Char(' '), Char('{'), "c", Word, Some(Operator), [Token("function", Word), Token(" ", Neutral), Token("test", Word), Token("(", Operator), Token(")", ClosingBrace), Token(" ", Neutral), Token("{", Operator), Token(" ", Neutral)])) && Running(Scanner(19, Char('o'), Char('c'), Char(' '), Char('{'), "c", Word, Some(Operator), [Token("function", Word), Token(" ", Neutral), Token("test", Word), Token("(", Operator), Token(")", ClosingBrace), Token(" ", Neutral), Token("{", Operator), Token(" ", Neutral)]))
    ensures Advance(text, Scanner(19, Char('o'), Char('c'), Char(' '), Char('{'), "c", Word, Some(Operator), [Token("function", Word), Token(" ", Neutral), Token("test", Word), Token("(", Operator), Token(")", ClosingBrace), Token(" ", Neutral), Token("{", Operator), Token(" ", Neutral)])) == Scanner(20, Char('n'), Char('o'), Char('c'), Char(' '), "co", Word, Some(Operator), [Token("function", Word), Token(" ", Neutral), Token("test", Word), Token("(", Operator), Token(")", ClosingBrace), Token(" ", Neutral), Token("{", Operator), Token(" ", Neutral)])
  {
    assert !Closes(text, Scanner(19, Char('o'), Char('c'), Char(' '), Char('{'), "c", Word, Some(Operator), [Token("function", Word), Token(" ", Neutral), Token("test", Word), Token("(", Operator), Token(")", ClosingBrace), Token(" ", Neutral), Token("{", Operator), Token(" ", Neutral)]));
  }

  lemma UsageExampleStep21(text: string)
    requires |text| == 38 && text[17] == ' ' && text[18] == 'c' && text[19] == 'o' && text[20] == 'n' && text[21] == 's' && text[22] == 'o' && text[23] == 'l'
    ensures Sane(text, Scanner(20, Char('n'), Char('o'), Char('c'), Char(' '), "co", Word, Some(Operator), [Token("function", Word), Token(" ", Neutral), Token("test", Word), Token("(", Operator), Token(")", ClosingBrace), Token(" ", Neutral), Token("{", Operator), Token(" ", Neutral)])) && Running(Scanner(20, Char('n'), Char('o'), Char('c'), Char(' '), "co", Word, Some(Operator), [Token("function", Word), Token(" ", Neutral), Token("test", Word), Token("(", Operator), Token(")", ClosingBrace), Token(" ", Neutral), Token("{", Operator), Token(" ", Neutral)]))
    ensures Advance(text, Scanner(20, Char('n'), Char('o'), Char('c'), Char(' '), "co", Word, Some(Operator), [Token("function", Word), Token(" ", Neutral), Token("test", Word), Token("(", Operator), Token(")", ClosingBrace), Token(" ", Neutral), Token("{", Operator), Token(" ", Neutral)])) == Scanner(21, Char('s'), Char('n'), Char('o'), Char('c'), "con", Word, Some(Operator), [Token("function", Word), Token(" ", Neutral), Token("test", Word), Token("(", Operator), Token(")", ClosingBrace), Token(" ", Neutral), Token("{", Operator), Token(" ", Neutral)])
  {
    assert !Closes(text, Scanner(20, Char('n'), Char('o'), Char('c'), Char(' '), "co", Word, Some(Operator), [Token("function", Word), Token(" ", Neutral), Token("test", Word), Token("(", Operator), Token(")", ClosingBrace), Token(" ", Neutral), Token("{", Operator), Token(" ", Neutral)]));
  }

  lemma UsageExampleStep22(text: string)
    requires |text| == 38 && text[18] == 'c' && text[19] == 'o' && text[20] == 'n' && text[21] == 's' && text[22] == 'o' && text[23] == 'l' && text[24] == 'e'
    ensures Sane(text, Scanner(21, Char('s'), Char('n'), Char('o'), Char('c'), "con", Word, Some(Operator), [Token("function", Word), Token(" ", Neutral), Token("test", Word), Token("(", Operator), Token(")", ClosingBrace), Token(" ", Neutral), Token("{", Operator), Token(" ", Neutral)])) && Running(Scanner(21, Char('s'), Char('n'), Char('o'), Char('c'), "con", Word, Some(Operator), [Token("function", Word), Token(" ", Neutral), Token("test", Word), Token("(", Operator), Token(")", ClosingBrace), Token(" ", Neutral), Token("{", Operator), Token(" ", Neutral)]))
    ensures Advance(text, Scanner(21, Char('s'), Char('n'), Char('o'), Char('c'), "con", Word, Some(Operator), [Token("function", Word), Token(" ", Neutral), Token("test", Word), Token("(", Operator), Token(")", ClosingBrace), Token(" ", Neutral), Token("{", Operator), Token(" ", Neutral)])) == Scanner(22, Char('o'), Char('s'), Char('n'), Char('o'), "cons", Word, Some(Operator), [Token("function", Word), Token(" ", Neutral), Token("test", Word), Token("(", Operator), Token(")", ClosingBrace), Token(" ", Neutral), Token("{", Operator), Token(" ", Neutral)])
  {
    assert !Closes(text, Scanner(21, Char('s'), Char('n'), Char('o'), Char('c'), "con", Word, Some(Operator), [Token("function", Word), Token(" ", Neutral), Token("test", Word), Token("(", Operator), Token(")", ClosingBrace), Token(" ", Neutral), Token("{", Operator), Token(" ", Neutral)]));
  }

  lemma UsageExampleStep23(text: string)
    requires |text| == 38 && text[19] == 'o' && text[20] == 'n' && text[21] == 's' && text[22] == 'o' && text[23] == 'l' && text[24] == 'e' && text[25] == '.'
    ensures Sane(text, Scanner(22, Char('o'), Char('s'), Char('n'), Char('o'), "cons", Word, Some(Operator), [Token("function", Word), Token(" ", Neutral), Token("test", Word), Token("(", Operator), Token(")", ClosingBrace), Token(" ", Neutral), Token("{", Operator), Token(" ", Neutral)])) && Running(Scanner(22, Char('o'), Char('s'), Char('n'), Char('o'), "cons", Word, Some(Operator), [Token("function", Word), Token(" ", Neutral), Token("test", Word), Token("(", Operator), Token(")", ClosingBrace), Token(" ", Neutral), Token("{", Operator), Token(" ", Neutral)]))
    ensures Advance(text, Scanner(22, Char('o'), Char('s'), Char('n'), Char('o'), "cons", Word, Some(Operator), [Token("function", Word), Token(" ", Neutral), Token("test", Word), Token("(", Operator), Token(")", ClosingBrace), Token(" ", Neutral), Token("{", Operator), Token(" ", Neutral)])) == Scanner(23, Char('l'), Char('o'), Char('s'), Char('n'), "conso", Word, Some(Operator), [Token("function", Word), Token(" ", Neutral), Token("test", Word), Token("(", Operator), Token(")", ClosingBrace), Token(" ", Neutral), Token("{", Operator), Token(" ", Neutral)])
  {
    assert !Closes(text, Scanner(22, Char('o'), Char('s'), Char('n'), Char('o'), "cons", Word, Some(Operator), [Token("function", Word), Token(" ", Neutral), Token("test", Word), Token("(", Operator), Token(")", ClosingBrace), Token(" ", Neutral), Token("{", Operator), Token(" ", Neutral)]));
  }

  lemma UsageExampleStep24(text: string)
    requires |text| == 38 && text[20] == 'n' && text[21] == 's' && text[22] == 'o' && text[23] == 'l' && text[24] == 'e' && text[25] == '.' && text[26] == 'l'
    ensures Sane(text, Scanner(23, Char('l'), Char('o'), Char('s'), Char('n'), "conso", Word, Some(Operator), [Token("function", Word), Token(" ", Neutral), Token("test", Word), Token("(", Operator), Token(")", ClosingBrace), Token(" ", Neutral), Token("{", Operator), Token(" ", Neutral)])) && Running(Scanner(23, Char('l'), Char('o'), Char('s'), Char('n'), "conso", Word, Some(Operator), [Token("function", Word), Token(" ", Neutral), Token("test", Word), Token("(", Operator), Token(")", ClosingBrace), Token(" ", Neutral), Token("{", Operator), Token(" ", Neutral)]))
    ensures Advance(text, Scanner(23, Char('l'), Char('o'), Char('s'), Char('n'), "conso", Word, Some(Operator), [Token("function", Word), Token(" ", Neutral), Token("test", Word), Token("(", Operator), Token(")", ClosingBrace), Token(" ", Neutral), Token("{", Operator), Token(" ", Neutral)])) == Scanner(24, Char('e'), Char('l'), Char('o'), Char('s'), "consol", Word, Some(Operator), [Token("function", Word), Token(" ", Neutral), Token("test", Word), Token("(", Operator), Token(")", ClosingBrace), Token(" ", Neutral), Token("{", Operator), Token(" ", Neutral)])
  {
    assert !Closes(text, Scanner(23, Char('l'), Char('o'), Char('s'), Char('n'), "conso", Word, Some(Operator), [Token("function", Word), Token(" ", Neutral), Token("test", Word), Token("(", Operator), Token(")", ClosingBrace), Token(" ", Neutral), Token("{", Operator), Token(" ", Neutral)]));
  }

  lemma UsageExampleStep25(text: string)
    requires |text| == 38 && text[21] == 's' && text[22] == 'o' && text[23] == 'l' && text[24] == 'e' && text[25] == '.' && text[26] == 'l' && text[27] == 'o'
    ensures Sane(text, Scanner(24, Char('e'), Char('l'), Char('o'), Char('s'), "consol", Word, Some(Operator), [Token("function", Word), Token(" ", Neutral), Token("test", Word), Token("(", Operator), Token(")", ClosingBrace), Token(" ", Neutral), Token("{", Operator), Token(" ", Neutral)])) && Running(Scanner(24, Char('e'), Char('l'), Char('o'), Char('s'), "consol", Word, Some(Operator), [Token("function", Word), Token(" ", Neutral), Token("test", Word), Token("(", Operator), Token(")", ClosingBrace), Token(" ", Neutral), Token("{", Operator), Token(" ", Neutral)]))
    ensures Advance(text, Scanner(24, Char('e'), Char('l'), Char('o'), Char('s'), "consol", Word, Some(Operator), [Token("function", Word), Token(" ", Neutral), Token("test", Word), Token("(", Operator), Token(")", ClosingBrace), Token(" ", Neutral), Token("{", Operator), Token(" ", Neutral)])) == Scanner(25, Char('.'), Char('e'), Char('l'), Char('o'), "console", Word, Some(Operator), [Token("function", Word), Token(" ", Neutral), Token("test", Word), Token("(", Operator), Token(")", ClosingBrace), Token(" ", Neutral), Token("{", Operator), Token(" ", Neutral)])
  {
    assert !Closes(text, Scanner(24, Char('e'), Char('l'), Char('o'), Char('s'), "consol", Word, Some(Operator), [Token("function", Word), Token(" ", Neutral), Token("test", Word), Token("(", Operator), Token(")", ClosingBrace), Token(" ", Neutral), Token("{", Operator), Token(" ", Neutral)]));
  }

  lemma UsageExampleStep26(text: string)
    requires |text| == 38 && text[22] == 'o' && text[23] == 'l' && text[24] == 'e' && text[25] == '.' && text[26] == 'l' && text[27] == 'o' && text[28] == 'g'
    ensures Sane(text, Scanner(25, Char('.'), Char('e'), Char('l'), Char('o'), "console", Word, Some(Operator), [Token("function", Word), Token(" ", Neutral), Token("test", Word), Token("(", Operator), Token(")", ClosingBrace), Token(" ", Neutral), Token("{", Operator), Token(" ", Neutral)])) && Running(Scanner(25, Char('.'), Char('e'), Char('l'), Char('o'), "console", Word, Some(Operator), [Token("function", Word), Token(" ", Neutral), Token("test", Word), Token("(", Operator), Token(")", ClosingBrace), Token(" ", Neutral), Token("{", Operator), Token(" ", Neutral)]))
    ensures Advance(text, Scanner(25, Char('.'), Char('e'), Char('l'), Char('o'), "console", Word, Some(Operator), [Token("function", Word), Token(" ", Neutral), Token("test", Word), Token("(", Operator), Token(")", ClosingBrace), Token(" ", Neutral), Token("{", Operator), Token(" ", Neutral)])) == Scanner(26, Char('l'), Char('.'), Char('e'), Char('l'), ".", Operator, Some(Word), [Token("function", Word), Token(" ", Neutral), Token("test", Word), Token("(", Operator), Token(")", ClosingBrace), Token(" ", Neutral), Token("{", Operator), Token(" ", Neutral), Token("console", Word)])
  {
    assert Closes(text, Scanner(25, Char('.'), Char('e'), Char('l'), Char('o'), "console", Word, Some(Operator), [Token("function", Word), Token(" ", Neutral), Token("test", Word), Token("(", Operator), Token(")", ClosingBrace), Token(" ", Neutral), Token("{", Operator), Token(" ", Neutral)]));
  }

  lemma UsageExampleStep27(text: string)
    requires |text| == 38 && text[23] == 'l' && text[24] == 'e' && text[25] == '.' && text[26] == 'l' && text[27] == 'o' && text[28] == 'g' && text[29] == '('
    ensures Sane(text, Scanner(26, Char('l'), Char('.'), Char('e'), Char('l'), ".", Operator, Some(Word), [Token("function", Word), Token(" ", Neutral), Token("test", Word), Token("(", Operator), Token(")", ClosingBrace), Token(" ", Neutral), Token("{", Operator), Token(" ", Neutral), Token("console", Word)])) && Running(Scanner(26, Char('l'), Char('.'), Char('e'), Char('l'), ".", Operator, Some(Word), [Token("function", Word), Token(" ", Neutral), Token("test", Word), Token("(", Operator), Token(")", ClosingBrace), Token(" ", Neutral), Token("{", Operator), Token(" ", Neutral), Token("console", Word)]))
    ensures Advance(text, Scanner(26, Char('l'), Char('.'), Char('e'), Char('l'), ".", Operator, Some(Word), [Token("function", Word), Token(" ", Neutral), Token("test", Word), Token("(", Operator), Token(")", ClosingBrace), Token(" ", Neutral), Token("{", Operator), Token(" ", Neutral), Token("console", Word)])) == Scanner(27, Char('o'), Char('l'), Char('.'), Char('e'), "l", Word, Some(Operator), [Token("function", Word), Token(" ", Neutral), Token("test", Word), Token("(", Operator), Token(")", ClosingBrace), Token(" ", Neutral), Token("{", Operator), Token(" ", Neutral), Token("console", Word), Token(".", Operator)])
  {
    assert Closes(text, Scanner(26, Char('l'), Char('.'), Char('e'), Char('l'), ".", Operator, Some(Word), [Token("function", Word), Token(" ", Neutral), Token("test", Word), Token("(", Operator), Token(")", ClosingBrace), Token(" ", Neutral), Token("{", Operator), Token(" ", Neutral), Token("console", Word)]));
  }

  lemma UsageExampleStep28(text: string)
    requires |text| == 38 && text[24] == 'e' && text[25] == '.' && text[26] == 'l' && text[27] == 'o' && text[28] == 'g' && text[29] == '(' && text[30] == '"'
    ensures Sane(text, Scanner(27, Char('o'), Char('l'), Char('.'), Char('e'), "l", Word, Some(Operator), [Token("function", Word), Token(" ", Neutral), Token("test", Word), Token("(", Operator), Token(")", ClosingBrace), Token(" ", Neutral), Token("{", Operator), Token(" ", Neutral), Token("console", Word), Token(".", Operator)])) && Running(Scanner(27, Char('o'), Char('l'), Char('.'), Char('e'), "l", Word, Some(Operator), [Token("function", Word), Token(" ", Neutral), Token("test", Word), Token("(", Operator), Token(")", ClosingBrace), Token(" ", Neutral), Token("{", Operator), Token(" ", Neutral), Token("console", Word), Token(".", Operator)]))
    ensures Advance(text, Scanner(27, Char('o'), Char('l'), Char('.'), Char('e'), "l", Word, Some(Operator), [Token("function", Word), Token(" ", Neutral), Token("test", Word), Token("(", Operator), Token(")", ClosingBrace), Token(" ", Neutral), Token("{", Operator), Token(" ", Neutral), Token("console", Word), Token(".", Operator)])) == Scanner(28, Char('g'), Char('o'), Char('l'), Char('.'), "lo", Word, Some(Operator), [Token("function", Word), Token(" ", Neutral), Token("test", Word), Token("(", Operator), Token(")", ClosingBrace), Token(" ", Neutral), Token("{", Operator), Token(" ", Neutral), Token("console", Word), Token(".", Operator)])
  {
    assert !Closes(text, Scanner(27, Char('o'), Char('l'), Char('.'), Char('e'), "l", Word, Some(Operator), [Token("function", Word), Token(" ", Neutral), Token("test", Word), Token("(", Operator), Token(")", ClosingBrace), Token(" ", Neutral), Token("{", Operator), Token(" ", Neutral), Token("console", Word), Token(".", Operator)]));
  }

  lemma UsageExampleStep29(text: string)
    requires |text| == 38 && text[25] == '.' && text[26] == 'l' && text[27] == 'o' && text[28] == 'g' && text[29] == '(' && text[30] == '"' && text[31] == 't'
    ensures Sane(text, Scanner(28, Char('g'), Char('o'), Char('l'), Char('.'), "lo", Word, Some(Operator), [Token("function", Word), Token(" ", Neutral), Token("test", Word), Token("(", Operator), Token(")", ClosingBrace), Token(" ", Neutral), Token("{", Operator), Token(" ", Neutral), Token("console", Word), Token(".", Operator)])) && Running(Scanner(28, Char('g'), Char('o'), Char('l'), Char('.'), "lo", Word, Some(Operator), [Token("function", Word), Token(" ", Neutral), Token("test", Word), Token("(", Operator), Token(")", ClosingBrace), Token(" ", Neutral), Token("{", Operator), Token(" ", Neutral), Token("console", Word), Token(".", Operator)]))
    ensures Advance(text, Scanner(28, Char('g'), Char('o'), Char('l'), Char('.'), "lo", Word, Some(Operator), [Token("function", Word), Token(" ", Neutral), Token("test", Word), Token("(", Operator), Token(")", ClosingBrace), Token(" ", Neutral), Token("{", Operator), Token(" ", Neutral), Token("console", Word), Token(".", Operator)])) == Scanner(29, Char('('), Char('g'), Char('o'), Char('l'), "log", Word, Some(Operator), [Token("function", Word), Token(" ", Neutral), Token("test", Word), Token("(", Operator), Token(")", ClosingBrace), Token(" ", Neutral), Token("{", Operator), Token(" ", Neutral), Token("console", Word), Token(".", Operator)])
  {
    assert !Closes(text, Scanner(28, Char('g'), Char('o'), Char('l'), Char('.'), "lo", Word, Some(Operator), [Token("function", Word), Token(" ", Neutral), Token("test", Word), Token("(", Operator), Token(")", ClosingBrace), Token(" ", Neutral), Token("{", Operator), Token(" ", Neutral), Token("console", Word), Token(".", Operator)]));
  }

  lemma UsageExampleStep30(text: string)
    requires |text| == 38 && text[26] == 'l' && text[27] == 'o' && text[28] == 'g' && text[29] == '(' && text[30] == '"' && text[31] == 't' && text[32] == 'e'
    ensures Sane(text, Scanner(29, Char('('), Char('g'), Char('o'), Char('l'), "log", Word, Some(Operator), [Token("function", Word), Token(" ", Neutral), Token("test", Word), Token("(", Operator), Token(")", ClosingBrace), Token(" ", Neutral), Token("{", Operator), Token(" ", Neutral), Token("console", Word), Token(".", Operator)])) && Running(Scanner(29, Char('('), Char('g'), Char('o'), Char('l'), "log", Word, Some(Operator), [Token("function", Word), Token(" ", Neutral), Token("test", Word), Token("(", Operator), Token(")", ClosingBrace), Token(" ", Neutral), Token("{", Operator), Token(" ", Neutral), Token("console", Word), Token(".", Operator)]))
    ensures Advance(text, Scanner(29, Char('('), Char('g'), Char('o'), Char('l'), "log", Word, Some(Operator), [Token("function", Word), Token(" ", Neutral), Token("test", Word), Token("(", Operator), Token(")", ClosingBrace), Token(" ", Neutral), Token("{", Operator), Token(" ", Neutral), Token("console", Word), Token(".", Operator)])) == Scanner(30, Char('"'), Char('('), Char('g'), Char('o'), "(", Operator, Some(Word), [Token("function", Word), Token(" ", Neutral), Token("test", Word), Token("(", Operator), Token(")", ClosingBrace), Token(" ", Neutral), Token("{", Operator), Token(" ", Neutral), Token("console", Word), Token(".", Operator), Token("log", Word)])
  {
    assert Closes(text, Scanner(29, Char('('), Char('g'), Char('o'), Char('l'), "log", Word, Some(Operator), [Token("function", Word), Token(" ", Neutral), Token("test", Word), Token("(", Operator), Token(")", ClosingBrace), Token(" ", Neutral), Token("{", Operator), Token(" ", Neutral), Token("console", Word), Token(".", Operator)]));
  }

  lemma UsageExampleStep31(text: string)
    requires |text| == 38 && text[27] == 'o' && text[28] == 'g' && text[29] == '(' && text[30] == '"' && text[31] == 't' && text[32] == 'e' && text[33] == 's'
    ensures Sane(text, Scanner(30, Char('"'), Char('('), Char('g'), Char('o'), "(", Operator, Some(Word), [Token("function", Word), Token(" ", Neutral), Token("test", Word), Token("(", Operator), Token(")", ClosingBrace), Token(" ", Neutral), Token("{", Operator), Token(" ", Neutral), Token("console", Word), Token(".", Operator), Token("log", Word)])) && Running(Scanner(30, Char('"'), Char('('), Char('g'), Char('o'), "(", Operator, Some(Word), [Token("function", Word), Token(" ", Neutral), Token("test", Word), Token("(", Operator), Token(")", ClosingBrace), Token(" ", Neutral), Token("{", Operator), Token(" ", Neutral), Token("console", Word), Token(".", Operator), Token("log", Word)]))
    ensures Advance(text, Scanner(30, Char('"'), Char('('), Char('g'), Char('o'), "(", Operator, Some(Word), [Token("function", Word), Token(" ", Neutral), Token("test", Word), Token("(", Operator), Token(")", ClosingBrace), Token(" ", Neutral), Token("{", Operator), Token(" ", Neutral), Token("console", Word), Token(".", Operator), Token("log", Word)])) == Scanner(31, Char('t'), Char('"'), Char('('), Char('g'), "\"", DoubleQuoted, Some(Operator), [Token("function", Word), Token(" ", Neutral), Token("test", Word), Token("(", Operator), Token(")", ClosingBrace), Token(" ", Neutral), Token("{", Operator), Token(" ", Neutral), Token("console", Word), Token(".", Operator), Token("log", Word), Token("(", Operator)])
  {
    assert Closes(text, Scanner(30, Char('"'), Char('('), Char('g'), Char('o'), "(", Operator, Some(Word), [Token("function", Word), Token(" ", Neutral), Token("test", Word), Token("(", Operator), Token(")", ClosingBrace), Token(" ", Neutral), Token("{", Operator), Token(" ", Neutral), Token("console", Word), Token(".", Operator), Token("log", Word)]));
  }

  lemma UsageExampleStep32(text: string)
    requires |text| == 38 && text[28] == 'g' && text[29] == '(' && text[30] == '"' && text[31] == 't' && text[32] == 'e' && text[33] == 's' && text[34] == 't'
    ensures Sane(text, Scanner(31, Char('t'), Char('"'), Char('('), Char('g'), "\"", DoubleQuoted, Some(Operator), [Token("function", Word), Token(" ", Neutral), Token("test", Word), Token("(", Operator), Token(")", ClosingBrace), Token(" ", Neutral), Token("{", Operator), Token(" ", Neutral), Token("console", Word), Token(".", Operator), Token("log", Word), Token("(", Operator)])) && Running(Scanner(31, Char('t'), Char('"'), Char('('), Char('g'), "\"", DoubleQuoted, Some(Operator), [Token("function", Word), Token(" ", Neutral), Token("test", Word), Token("(", Operator), Token(")", ClosingBrace), Token(" ", Neutral), Token("{", Operator), Token(" ", Neutral), Token("console", Word), Token(".", Operator), Token("log", Word), Token("(", Operator)]))
    ensures Advance(text, Scanner(31, Char('t'), Char('"'), Char('('), Char('g'), "\"", DoubleQuoted, Some(Operator), [Token("function", Word), Token(" ", Neutral), Token("test", Word), Token("(", Operator), Token(")", ClosingBrace), Token(" ", Neutral), Token("{", Operator), Token(" ", Neutral), Token("console", Word), Token(".", Operator), Token("log", Word), Token("(", Operator)])) == Scanner(32, Char('e'), Char('t'), Char('"'), Char('('), "\"t", DoubleQuoted, Some(Operator), [Token("function", Word), Token(" ", Neutral), Token("test", Word), Token("(", Operator), Token(")", ClosingBrace), Token(" ", Neutral), Token("{", Operator), Token(" ", Neutral), Token("console", Word), Token(".", Operator), Token("log", Word), Token("(", Operator)])
  {
    assert !Closes(text, Scanner(31, Char('t'), Char('"'), Char('('), Char('g'), "\"", DoubleQuoted, Some(Operator), [Token("function", Word), Token(" ", Neutral), Token("test", Word), Token("(", Operator), Token(")", ClosingBrace), Token(" ", Neutral), Token("{", Operator), Token(" ", Neutral), Token("console", Word), Token(".", Operator), Token("log", Word), Token("(", Operator)]));
  }

  lemma UsageExampleStep33(text: string)
    requires |text| == 38 && text[29] == '(' && text[30] == '"' && text[31] == 't' && text[32] == 'e' && text[33] == 's' && text[34] == 't' && text[35] == '"'
    ensures Sane(text, Scanner(32, Char('e'), Char('t'), Char('"'), Char('('), "\"t", DoubleQuoted, Some(Operator), [Token("function", Word), Token(" ", Neutral), Token("test", Word), Token("(", Operator), Token(")", ClosingBrace), Token(" ", Neutral), Token("{", Operator), Token(" ", Neutral), Token("console", Word), Token(".", Operator), Token("log", Word), Token("(", Operator)])) && Running(Scanner(32, Char('e'), Char('t'), Char('"'), Char('('), "\"t", DoubleQuoted, Some(Operator), [Token("function", Word), Token(" ", Neutral), Token("test", Word), Token("(", Operator), Token(")", ClosingBrace), Token(" ", Neutral), Token("{", Operator), Token(" ", Neutral), Token("console", Word), Token(".", Operator), Token("log", Word), Token("(", Operator)]))
    ensures Advance(text, Scanner(32, Char('e'), Char('t'), Char('"'), Char('('), "\"t", DoubleQuoted, Some(Operator), [Token("function", Word), Token(" ", Neutral), Token("test", Word), Token("(", Operator), Token(")", ClosingBrace), Token(" ", Neutral), Token("{", Operator), Token(" ", Neutral), Token("console", Word), Token(".", Operator), Token("log", Word), Token("(", Operator)])) == Scanner(33, Char('s'), Char('e'), Char('t'), Char('"'), "\"te", DoubleQuoted, Some(Operator), [Token("function", Word), Token(" ", Neutral), Token("test", Word), Token("(", Operator), Token(")", ClosingBrace), Token(" ", Neutral), Token("{", Operator), Token(" ", Neutral), Token("console", Word), Token(".", Operator), Token("log", Word), Token("(", Operator)])
  {
    assert !Closes(text, Scanner(32, Char('e'), Char('t'), Char('"'), Char('('), "\"t", DoubleQuoted, Some(Operator), [Token("function", Word), Token(" ", Neutral), Token("test", Word), Token("(", Operator), Token(")", ClosingBrace), Token(" ", Neutral), Token("{", Operator), Token(" ", Neutral), Token("console", Word), Token(".", Operator), Token("log", Word), Token("(", Operator)]));
  }

  lemma UsageExampleStep34(text: string)
    requires |text| == 38 && text[30] == '"' && text[31] == 't' && text[32] == 'e' && text[33] == 's' && text[34] == 't' && text[35] == '"' && text[36] == ')'
    ensures Sane(text, Scanner(33, Char('s'), Char('e'), Char('t'), Char('"'), "\"te", DoubleQuoted, Some(Operator), [Token("function", Word), Token(" ", Neutral), Token("test", Word), Token("(", Operator), Token(")", ClosingBrace), Token(" ", Neutral), Token("{", Operator), Token(" ", Neutral), Token("console", Word), Token(".", Operator), Token("log", Word), Token("(", Operator)])) && Running(Scanner(33, Char('s'), Char('e'), Char('t'), Char('"'), "\"te", DoubleQuoted, Some(Operator), [Token("function", Word), Token(" ", Neutral), Token("test", Word), Token("(", Operator), Token(")", ClosingBrace), Token(" ", Neutral), Token("{", Operator), Token(" ", Neutral), Token("console", Word), Token(".", Operator), Token("log", Word), Token("(", Operator)]))
    ensures Advance(text, Scanner(33, Char('s'), Char('e'), Char('t'), Char('"'), "\"te", DoubleQuoted, Some(Operator), [Token("function", Word), Token(" ", Neutral), Token("test", Word), Token("(", Operator), Token(")", ClosingBrace), Token(" ", Neutral), Token("{", Operator), Token(" ", Neutral), Token("console", Word), Token(".", Operator), Token("log", Word), Token("(", Operator)])) == Scanner(34, Char('t'), Char('s'), Char('e'), Char('t'), "\"tes", DoubleQuoted, Some(Operator), [Token("function", Word), Token(" ", Neutral), Token("test", Word), Token("(", Operator), Token(")", ClosingBrace), Token(" ", Neutral), Token("{", Operator), Token(" ", Neutral), Token("console", Word), Token(".", Operator), Token("log", Word), Token("(", Operator)])
  {
    assert !Closes(text, Scanner(33, Char('s'), Char('e'), Char('t'), Char('"'), "\"te", DoubleQuoted, Some(Operator), [Token("function", Word), Token(" ", Neutral), Token("test", Word), Token("(", Operator), Token(")", ClosingBrace), Token(" ", Neutral), Token("{", Operator), Token(" ", Neutral), Token("console", Word), Token(".", Operator), Token("log", Word), Token("(", Operator)]));
  }

  lemma UsageExampleStep35(text: string)
    requires |text| == 38 && text[31] == 't' && text[32] == 'e' && text[33] == 's' && text[34] == 't' && text[35] == '"' && text[36] == ')' && text[37] == '}'
    ensures Sane(text, Scanner(34, Char('t'), Char('s'), Char('e'), Char('t'), "\"tes", DoubleQuoted, Some(Operator), [Token("function", Word), Token(" ", Neutral), Token("test", Word), Token("(", Operator), Token(")", ClosingBrace), Token(" ", Neutral), Token("{", Operator), Token(" ", Neutral), Token("console", Word), Token(".", Operator), Token("log", Word), Token("(", Operator)])) && Running(Scanner(34, Char('t'), Char('s'), Char('e'), Char('t'), "\"tes", DoubleQuoted, Some(Operator), [Token("function", Word), Token(" ", Neutral), Token("test", Word), Token("(", Operator), Token(")", ClosingBrace), Token(" ", Neutral), Token("{", Operator), Token(" ", Neutral), Token("console", Word), Token(".", Operator), Token("log", Word), Token("(", Operator)]))
    ensures Advance(text, Scanner(34, Char('t'), Char('s'), Char('e'), Char('t'), "\"tes", DoubleQuoted, Some(Operator), [Token("function", Word), Token(" ", Neutral), Token("test", Word), Token("(", Operator), Token(")", ClosingBrace), Token(" ", Neutral), Token("{", Operator), Token(" ", Neutral), Token("console", Word), Token(".", Operator), Token("log", Word), Token("(", Operator)])) == Scanner(35, Char('"'), Char('t'), Char('s'), Char('e'), "\"test", DoubleQuoted, Some(Operator), [Token("function", Word), Token(" ", Neutral), Token("test", Word), Token("(", Operator), Token(")", ClosingBrace), Token(" ", Neutral), Token("{", Operator), Token(" ", Neutral), Token("console", Word), Token(".", Operator), Token("log", Word), Token("(", Operator)])
  {
    assert !Closes(text, Scanner(34, Char('t'), Char('s'), Char('e'), Char('t'), "\"tes", DoubleQuoted, Some(Operator), [Token("function", Word), Token(" ", Neutral), Token("test", Word), Token("(", Operator), Token(")", ClosingBrace), Token(" ", Neutral), Token("{", Operator), Token(" ", Neutral), Token("console", Word), Token(".", Operator), Token("log", Word), Token("(", Operator)]));
  }

  lemma UsageExampleStep36(text: string)
    requires |text| == 38 && text[32] == 'e' && text[33] == 's' && text[34] == 't' && text[35] == '"' && text[36] == ')' && text[37] == '}'
    ensures Sane(text, Scanner(35, Char('"'), Char('t'), Char('s'), Char('e'), "\"test", DoubleQuoted, Some(Operator), [Token("function", Word), Token(" ", Neutral), Token("test", Word), Token("(", Operator), Token(")", ClosingBrace), Token(" ", Neutral), Token("{", Operator), Token(" ", Neutral), Token("console", Word), Token(".", Operator), Token("log", Word), Token("(", Operator)])) && Running(Scanner(35, Char('"'), Char('t'), Char('s'), Char('e'), "\"test", DoubleQuoted, Some(Operator), [Token("function", Word), Token(" ", Neutral), Token("test", Word), Token("(", Operator), Token(")", ClosingBrace), Token(" ", Neutral), Token("{", Operator), Token(" ", Neutral), Token("console", Word), Token(".", Operator), Token("log", Word), Token("(", Operator)]))
    ensures Advance(text, Scanner(35, Char('"'), Char('t'), Char('s'), Char('e'), "\"test", DoubleQuoted, Some(Operator), [Token("function", Word), Token(" ", Neutral), Token("test", Word), Token("(", Operator), Token(")", ClosingBrace), Token(" ", Neutral), Token("{", Operator), Token(" ", Neutral), Token("console", Word), Token(".", Operator), Token("log", Word), Token("(", Operator)])) == Scanner(36, Char(')'), Char('"'), Char('t'), Char('s'), "\"test\"", DoubleQuoted, Some(Operator), [Token("function", Word), Token(" ", Neutral), Token("test", Word), Token("(", Operator), Token(")", ClosingBrace), Token(" ", Neutral), Token("{", Operator), Token(" ", Neutral), Token("console", Word), Token(".", Operator), Token("log", Word), Token("(", Operator)])
  {
    assert !Closes(text, Scanner(35, Char('"'), Char('t'), Char('s'), Char('e'), "\"test", DoubleQuoted, Some(Operator), [Token("function", Word), Token(" ", Neutral), Token("test", Word), Token("(", Operator), Token(")", ClosingBrace), Token(" ", Neutral), Token("{", Operator), Token(" ", Neutral), Token("console", Word), Token(".", Operator), Token("log", Word), Token("(", Operator)]));
  }

  lemma UsageExampleStep37(text: string)
    requires |text| == 38 && text[33] == 's' && text[34] == 't' && text[35] == '"' && text[36] == ')' && text[37] == '}'
    ensures Sane(text, Scanner(36, Char(')'), Char('"'), Char('t'), Char('s'), "\"test\"", DoubleQuoted, Some(Operator), [Token("function", Word), Token(" ", Neutral), Token("test", Word), Token("(", Operator), Token(")", ClosingBrace), Token(" ", Neutral), Token("{", Operator), Token(" ", Neutral), Token("console", Word), Token(".", Operator), Token("log", Word), Token("(", Operator)])) && Running(Scanner(36, Char(')'), Char('"'), Char('t'), Char('s'), "\"test\"", DoubleQuoted, Some(Operator), [Token("function", Word), Token(" ", Neutral), Token("test", Word), Token("(", Operator), Token(")", ClosingBrace), Token(" ", Neutral), Token("{", Operator), Token(" ", Neutral), Token("console", Word), Token(".", Operator), Token("log", Word), Token("(", Operator)]))
    ensures Advance(text, Scanner(36, Char(')'), Char('"'), Char('t'), Char('s'), "\"test\"", DoubleQuoted, Some(Operator), [Token("function", Word), Token(" ", Neutral), Token("test", Word), Token("(", Operator), Token(")", ClosingBrace), Token(" ", Neutral), Token("{", Operator), Token(" ", Neutral), Token("console", Word), Token(".", Operator), Token("log", Word), Token("(", Operator)])) == Scanner(37, Char('}'), Char(')'), Char('"'), Char('t'), ")", ClosingBrace, Some(DoubleQuoted), [Token("function", Word), Token(" ", Neutral), Token("test", Word), Token("(", Operator), Token(")", ClosingBrace), Token(" ", Neutral), Token("{", Operator), Token(" ", Neutral), Token("console", Word), Token(".", Operator), Token("log", Word), Token("(", Operator), Token("\"test\"", DoubleQuoted)])
  {
    assert Closes(text, Scanner(36, Char(')'), Char('"'), Char('t'), Char('s'), "\"test\"", DoubleQuoted, Some(Operator), [Token("function", Word), Token(" ", Neutral), Token("test", Word), Token("(", Operator), Token(")", ClosingBrace), Token(" ", Neutral), Token("{", Operator), Token(" ", Neutral), Token("console", Word), Token(".", Operator), Token("log", Word), Token("(", Operator)]));
  }

  lemma UsageExampleStep38(text: string)
    requires |text| == 38 && text[34] == 't' && text[35] == '"' && text[36] == ')' && text[37] == '}'
    ensures Sane(text, Scanner(37, Char('}'), Char(')'), Char('"'), Char('t'), ")", ClosingBrace, Some(DoubleQuoted), [Token("function", Word), Token(" ", Neutral), Token("test", Word), Token("(", Operator), Token(")", ClosingBrace), Token(" ", Neutral), Token("{", Operator), Token(" ", Neutral), Token("console", Word), Token(".", Operator), Token("log", Word), Token("(", Operator), Token("\"test\"", DoubleQuoted)])) && Running(Scanner(37, Char('}'), Char(')'), Char('"'), Char('t'), ")", ClosingBrace, Some(DoubleQuoted), [Token("function", Word), Token(" ", Neutral), Token("test", Word), Token("(", Operator), Token(")", ClosingBrace), Token(" ", Neutral), Token("{", Operator), Token(" ", Neutral), Token("console", Word), Token(".", Operator), Token("log", Word), Token("(", Operator), Token("\"test\"", DoubleQuoted)]))
    ensures Advance(text, Scanner(37, Char('}'), Char(')'), Char('"'), Char('t'), ")", ClosingBrace, Some(DoubleQuoted), [Token("function", Word), Token(" ", Neutral), Token("test", Word), Token("(", Operator), Token(")", ClosingBrace), Token(" ", Neutral), Token("{", Operator), Token(" ", Neutral), Token("console", Word), Token(".", Operator), Token("log", Word), Token("(", Operator), Token("\"test\"", DoubleQuoted)])) == Scanner(38, Undefined, Char('}'), Char(')'), Char('"'), "}", Operator, Some(ClosingBrace), [Token("function", Word), Token(" ", Neutral), Token("test", Word), Token("(", Operator), Token(")", ClosingBrace), Token(" ", Neutral), Token("{", Operator), Token(" ", Neutral), Token("console", Word), Token(".", Operator), Token("log", Word), Token("(", Operator), Token("\"test\"", DoubleQuoted), Token(")", ClosingBrace)])
  {
    assert Closes(text, Scanner(37, Char('}'), Char(')'), Char('"'), Char('t'), ")", ClosingBrace, Some(DoubleQuoted), [Token("function", Word), Token(" ", Neutral), Token("test", Word), Token("(", Operator), Token(")", ClosingBrace), Token(" ", Neutral), Token("{", Operator), Token(" ", Neutral), Token("console", Word), Token(".", Operator), Token("log", Word), Token("(", Operator), Token("\"test\"", DoubleQuoted)]));
  }

  lemma UsageExampleStep39(text: string)
    requires |text| == 38 && text[35] == '"' && text[36] == ')' && text[37] == '}'
    ensures Sane(text, Scanner(38, Undefined, Char('}'), Char(')'), Char('"'), "}", Operator, Some(ClosingBrace), [Token("function", Word), Token(" ", Neutral), Token("test", Word), Token("(", Operator), Token(")", ClosingBrace), Token(" ", Neutral), Token("{", Operator), Token(" ", Neutral), Token("console", Word), Token(".", Operator), Token("log", Word), Token("(", Operator), Token("\"test\"", DoubleQuoted), Token(")", ClosingBrace)])) && Running(Scanner(38, Undefined, Char('}'), Char(')'), Char('"'), "}", Operator, Some(ClosingBrace), [Token("function", Word), Token(" ", Neutral), Token("test", Word), Token("(", Operator), Token(")", ClosingBrace), Token(" ", Neutral), Token("{", Operator), Token(" ", Neutral), Token("console", Word), Token(".", Operator), Token("log", Word), Token("(", Operator), Token("\"test\"", DoubleQuoted), Token(")", ClosingBrace)]))
    ensures Advance(text, Scanner(38, Undefined, Char('}'), Char(')'), Char('"'), "}", Operator, Some(ClosingBrace), [Token("function", Word), Token(" ", Neutral), Token("test", Word), Token("(", Operator), Token(")", ClosingBrace), Token(" ", Neutral), Token("{", Operator), Token(" ", Neutral), Token("console", Word), Token(".", Operator), Token("log", Word), Token("(", Operator), Token("\"test\"", DoubleQuoted), Token(")", ClosingBrace)])) == Scanner(39, Undefined, Undefined, Char('}'), Char(')'), "undefined", Word, Some(Operator), [Token("function", Word), Token(" ", Neutral), Token("test", Word), Token("(", Operator), Token(")", ClosingBrace), Token(" ", Neutral), Token("{", Operator), Token(" ", Neutral), Token("console", Word), Token(".", Operator), Token("log", Word), Token("(", Operator), Token("\"test\"", DoubleQuoted), Token(")", ClosingBrace), Token("}", Operator)])
    ensures !Running(Scanner(39, Undefined, Undefined, Char('}'), Char(')'), "undefined", Word, Some(Operator), [Token("function", Word), Token(" ", Neutral), Token("test", Word), Token("(", Operator), Token(")", ClosingBrace), Token(" ", Neutral), Token("{", Operator), Token(" ", Neutral), Token("console", Word), Token(".", Operator), Token("log", Word), Token("(", Operator), Token("\"test\"", DoubleQuoted), Token(")", ClosingBrace), Token("}", Operator)]))
  {
    assert Closes(text, Scanner(38, Undefined, Char('}'), Char(')'), Char('"'), "}", Operator, Some(ClosingBrace), [Token("function", Word), Token(" ", Neutral), Token("test", Word), Token("(", Operator), Token(")", ClosingBrace), Token(" ", Neutral), Token("{", Operator), Token(" ", Neutral), Token("console", Word), Token(".", Operator), Token("log", Word), Token("(", Operator), Token("\"test\"", DoubleQuoted), Token(")", ClosingBrace)]));
  }


  /** Formatters that mark what they were given. */
  function Marking(): Options
  {
    Options(["if", "else"], w => "K(" + w + ")", w => "P(" + w + ")", w => "S(" + w + ")", w => "C(" + w + ")")
  }

  // Each token goes through the formatter of its type; white space is left
  // as it is, and the results are joined in order.
  lemma MarkedHighlight()
    ensures Highlight("if \"s\" // c", Marking()) == "K(if) S(\"s\") C(// c)"
  {
    var o := Marking();
    var t0, t1, t2, t3, t4 := Token("if", Word), Token(" ", Neutral), Token("\"s\"", DoubleQuoted), Token(" ", Neutral), Token("// c", SlashComment);
    var f0, f1, f2, f3, f4 := "K(if)", " ", "S(\"s\")", " ", "C(// c)";
    KeywordStringComment();
    assert Tokens("if \"s\" // c") == [t0, t1, t2, t3, t4];
    MarkedFormats();
    FormatFive(t0, t1, t2, t3, t4, o);
    assert FormatAll([t0, t1, t2, t3, t4], o) == [f0, f1, f2, f3, f4];
    JoinFive(f0, f1, f2, f3, f4);
    MarkedJoin();
  }

  lemma MarkedJoin()
    ensures "K(if)" + " " + "S(\"s\")" + " " + "C(// c)" == "K(if) S(\"s\") C(// c)"
  {
  }

  lemma MarkedFormats()
    ensures Format(Token("if", Word), Marking()) == "K(if)"
    ensures Format(Token(" ", Neutral), Marking()) == " "
    ensures Format(Token("\"s\"", DoubleQuoted), Marking()) == "S(\"s\")"
    ensures Format(Token("// c", SlashComment), Marking()) == "C(// c)"
  {
    assert EqualsIgnoringCase("if", "if");
    assert IsKeyword("if", Marking().keywords);
  }

  lemma FormatFive(t0: Token, t1: Token, t2: Token, t3: Token, t4: Token, o: Options)
    ensures FormatAll([t0, t1, t2, t3, t4], o) == [Format(t0, o), Format(t1, o), Format(t2, o), Format(t3, o), Format(t4, o)]
  {
    FormatAllAppend([], t0, o);
    assert [] + [t0] == [t0];
    FormatAllAppend([t0], t1, o);
    assert [t0] + [t1] == [t0, t1];
    FormatAllAppend([t0, t1], t2, o);
    assert [t0, t1] + [t2] == [t0, t1, t2];
    FormatAllAppend([t0, t1, t2], t3, o);
    assert [t0, t1, t2] + [t3] == [t0, t1, t2, t3];
    FormatAllAppend([t0, t1, t2, t3], t4, o);
    assert [t0, t1, t2, t3] + [t4] == [t0, t1, t2, t3, t4];
  }

  lemma JoinFive(a: string, b: string, c: string, d: string, e: string)
    ensures Join([a, b, c, d, e]) == a + b + c + d + e
  {
    JoinAppend([], a);
    assert [] + [a] == [a];
    JoinAppend([a], b);
    assert [a] + [b] == [a, b];
    JoinAppend([a, b], c);
    assert [a, b] + [c] == [a, b, c];
    JoinAppend([a, b, c], d);
    assert [a, b, c] + [d] == [a, b, c, d];
    JoinAppend([a, b, c, d], e);
    assert [a, b, c, d] + [e] == [a, b, c, d, e];
  }

  /** `toUpperCase` on ASCII letters. */
  function ToUpper(w: string): string
  {
    seq(|w|, i requires 0 <= i < |w| => if 'a' <= w[i] <= 'z' then (w[i] as int - 32) as char else w[i])
  }

  /** The options of the usage example in the comment above `parse`. */
  function UsageOptions(): Options
  {
    Options(["function", "console"], ToUpper, w => w, w => w, w => w)
  }

  // The usage example in the comment above `parse`: the two keywords are
  // upper-cased and everything else is left as it is.
  lemma UsageHighlight()
    ensures Highlight("function test() { console.log(\"test\")}", UsageOptions()) == "FUNCTION test() { CONSOLE.log(\"test\")}"
  {
    UsageExample();
    UsageFormatAll();
    UsageJoin();
  }

  lemma UsageFormatAll()
    ensures FormatAll([Token("function", Word), Token(" ", Neutral), Token("test", Word), Token("(", Operator), Token(")", ClosingBrace), Token(" ", Neutral), Token("{", Operator), Token(" ", Neutral), Token("console", Word), Token(".", Operator), Token("log", Word), Token("(", Operator), Token("\"test\"", DoubleQuoted), Token(")", ClosingBrace), Token("}", Operator)], UsageOptions()) == ["FUNCTION", " ", "test", "(", ")", " ", "{", " ", "CONSOLE", ".", "log", "(", "\"test\"", ")", "}"]
  {
    var o := UsageOptions();
    var x, y, z := [Token("function", Word), Token(" ", Neutral), Token("test", Word), Token("(", Operator), Token(")", ClosingBrace)], [Token(" ", Neutral), Token("{", Operator), Token(" ", Neutral), Token("console", Word), Token(".", Operator)], [Token("log", Word), Token("(", Operator), Token("\"test\"", DoubleQuoted), Token(")", ClosingBrace), Token("}", Operator)];
    assert [Token("function", Word), Token(" ", Neutral), Token("test", Word), Token("(", Operator), Token(")", ClosingBrace), Token(" ", Neutral), Token("{", Operator), Token(" ", Neutral), Token("console", Word), Token(".", Operator), Token("log", Word), Token("(", Operator), Token("\"test\"", DoubleQuoted), Token(")", ClosingBrace), Token("}", Operator)] == x + y + z;
    FormatAllConcat(x + y, z, o);
    FormatAllConcat(x, y, o);
    UsageFormatPart1();
    UsageFormatPart2();
    UsageFormatPart3();
    assert ["FUNCTION", " ", "test", "(", ")"] + [" ", "{", " ", "CONSOLE", "."] + ["log", "(", "\"test\"", ")", "}"] == ["FUNCTION", " ", "test", "(", ")", " ", "{", " ", "CONSOLE", ".", "log", "(", "\"test\"", ")", "}"];
  }

  lemma UsageFormatPart1()
    ensures FormatAll([Token("function", Word), Token(" ", Neutral), Token("test", Word), Token("(", Operator), Token(")", ClosingBrace)], UsageOptions()) == ["FUNCTION", " ", "test", "(", ")"]
  {
    UsageFormats();
    FormatFive(Token("function", Word), Token(" ", Neutral), Token("test", Word), Token("(", Operator), Token(")", ClosingBrace), UsageOptions());
  }

  lemma UsageFormatPart2()
    ensures FormatAll([Token(" ", Neutral), Token("{", Operator), Token(" ", Neutral), Token("console", Word), Token(".", Operator)], UsageOptions()) == [" ", "{", " ", "CONSOLE", "."]
  {
    UsageFormats();
    FormatFive(Token(" ", Neutral), Token("{", Operator), Token(" ", Neutral), Token("console", Word), Token(".", Operator), UsageOptions());
  }

  lemma UsageFormatPart3()
    ensures FormatAll([Token("log", Word), Token("(", Operator), Token("\"test\"", DoubleQuoted), Token(")", ClosingBrace), Token("}", Operator)], UsageOptions()) == ["log", "(", "\"test\"", ")", "}"]
  {
    UsageFormats();
    FormatFive(Token("log", Word), Token("(", Operator), Token("\"test\"", DoubleQuoted), Token(")", ClosingBrace), Token("}", Operator), UsageOptions());
  }

  lemma UsageFormats()
    ensures Format(Token("function", Word), UsageOptions()) == "FUNCTION"
    ensures Format(Token(" ", Neutral), UsageOptions()) == " "
    ensures Format(Token("test", Word), UsageOptions()) == "test"
    ensures Format(Token("(", Operator), UsageOptions()) == "("
    ensures Format(Token(")", ClosingBrace), UsageOptions()) == ")"
    ensures Format(Token("{", Operator), UsageOptions()) == "{"
    ensures Format(Token("console", Word), UsageOptions()) == "CONSOLE"
    ensures Format(Token(".", Operator), UsageOptions()) == "."
    ensures Format(Token("log", Word), UsageOptions()) == "log"
    ensures Format(Token("\"test\"", DoubleQuoted), UsageOptions()) == "\"test\""
    ensures Format(Token("}", Operator), UsageOptions()) == "}"
  {
    assert EqualsIgnoringCase("function", "function");
    assert IsKeyword("function", UsageOptions().keywords);
    assert EqualsIgnoringCase("console", "console");
    assert IsKeyword("console", UsageOptions().keywords);
    assert ToUpper("function") == "FUNCTION";
    assert ToUpper("console") == "CONSOLE";
  }

  lemma UsageJoin()
    ensures Join(["FUNCTION", " ", "test", "(", ")", " ", "{", " ", "CONSOLE", ".", "log", "(", "\"test\"", ")", "}"]) == "FUNCTION test() { CONSOLE.log(\"test\")}"
  {
    var x, y, z := ["FUNCTION", " ", "test", "(", ")"], [" ", "{", " ", "CONSOLE", "."], ["log", "(", "\"test\"", ")", "}"];
    assert ["FUNCTION", " ", "test", "(", ")", " ", "{", " ", "CONSOLE", ".", "log", "(", "\"test\"", ")", "}"] == x + y + z;
    JoinConcat(x + y, z);
    JoinConcat(x, y);
    JoinFive("FUNCTION", " ", "test", "(", ")");
    assert Join(x) == "FUNCTION test()";
    JoinFive(" ", "{", " ", "CONSOLE", ".");
    assert Join(y) == " { CONSOLE.";
    JoinFive("log", "(", "\"test\"", ")", "}");
    assert Join(z) == "log(\"test\")}";
    UsageJoinText();
  }

  lemma UsageJoinText()
    ensures "FUNCTION test()" + " { CONSOLE." + "log(\"test\")}" == "FUNCTION test() { CONSOLE.log(\"test\")}"
  {
  }

}
