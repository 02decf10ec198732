/** Characters as the scanner sees them, and the character classes of its
    regular-expression tests. */
module Chars {

  datatype Option<T> = None | Some(value: T)

  /** A value held by one of the scanner's character variables. Besides a
      real character it may hold the number 1 (`Marker`: the initial value
      of `chr` and the escape mask put into `prev1`; truthy, equal to no
      character) or `undefined` (`Undefined`: a read past either end of the
      text; falsy, equal to no character). */
  datatype Sym = Char(c: char) | Marker | Undefined

  /** `text[i]`, which is `undefined` outside the text (also for i < 0). */
  function At(text: string, i: int): (r: Sym)
    ensures r != Marker
    ensures r == Undefined <==> !(0 <= i < |text|)
    ensures 0 <= i < |text| ==> r == Char(text[i])
  {
    if 0 <= i < |text| then Char(text[i]) else Undefined
  }

  /** The string a value turns into when appended to a string. */
  function SymText(s: Sym): (r: string)
    ensures s.Char? ==> r == [s.c]
    ensures |r| >= 1
  {
    match s
    case Char(c) => [c]
    case Marker => "1"
    case Undefined => "undefined"
  }

  /** `\s`: the white-space and line-terminator code points. */
  predicate IsSpace(c: char)
  {
    var n := c as int;
    n == 0x09 || n == 0x0A || n == 0x0B || n == 0x0C || n == 0x0D || n == 0x20 ||
    n == 0xA0 || n == 0x1680 || (0x2000 <= n <= 0x200A) || n == 0x2028 || n == 0x2029 ||
    n == 0x202F || n == 0x205F || n == 0x3000 || n == 0xFEFF
  }

  predicate IsAsciiLetter(c: char)
  {
    ('a' <= c <= 'z') || ('A' <= c <= 'Z')
  }

  /** `\w`: ASCII letters, digits and underscore. */
  predicate IsIdentChar(c: char)
  {
    IsAsciiLetter(c) || ('0' <= c <= '9') || c == '_'
  }

  /** `[$\w]`: a character of a (key)word token. */
  predicate IsWordChar(c: char)
  {
    c == '$' || IsIdentChar(c)
  }

  /** `[\/{}[(\-+*=<>:;|\\.,?!&@~]`: operators and opening braces, that is
      `! & (`, the run `* + , - . /`, the run `: ; < = > ? @`, `[ \` and the
      run `{ | } ~`. */
  predicate IsOperatorChar(c: char)
  {
    c == '!' || c == '&' || c == '(' || ('*' <= c <= '/') || (':' <= c <= '@') ||
    c == '[' || c == '\\' || ('{' <= c <= '~')
  }

  /** `[\])]`: closing braces, after which `/` means division. */
  predicate IsClosingBraceChar(c: char)
  {
    c == ']' || c == ')'
  }

  /** The regular-expression test `/[$\w]/.test(s)`; the test reads its
      argument as a string, so `1` and `undefined` both pass. */
  predicate WordTest(s: Sym)
  {
    match s
    case Char(c) => IsWordChar(c)
    case Marker => true
    case Undefined => true
  }

  /** `/\S/.test(s)`. */
  predicate NonSpaceTest(s: Sym)
  {
    match s
    case Char(c) => !IsSpace(c)
    case Marker => true
    case Undefined => true
  }

  /** Case folding of the case-insensitive regular-expression flag, for
      ASCII: a letter goes to its own lower-case form (an upper-case letter
      is 32 code points below it), anything else to itself. */
  function FoldCase(c: char): (r: char)
    ensures IsAsciiLetter(c) ==> 'a' <= r <= 'z' && (r == c || r as int == c as int + 32)
    ensures !IsAsciiLetter(c) ==> r == c
  {
    if 'A' <= c <= 'Z' then (c as int + 32) as char else c
  }

  /** Two characters fold alike exactly when they are equal or are the two
      cases of one ASCII letter. */
  lemma SameFold(a: char, b: char)
    ensures FoldCase(a) == FoldCase(b) <==>
            a == b || (IsAsciiLetter(a) && IsAsciiLetter(b) && (a as int - b as int == 32 || b as int - a as int == 32))
  {
  }

  /** Whole-string equality ignoring ASCII case. */
  predicate EqualsIgnoringCase(a: string, b: string)
  {
    |a| == |b| && forall i :: 0 <= i < |a| ==> FoldCase(a[i]) == FoldCase(b[i])
  }

  /** The character following `prefix` is escaped: `prefix` ends in a
      backslash that is not itself escaped. */
  predicate EscapedAfter(prefix: string)
  {
    |prefix| > 0 && prefix[|prefix| - 1] == '\\' && !EscapedAfter(prefix[..|prefix| - 1])
  }

  /** Number of backslashes at the end of `s`. */
  function TrailingBackslashes(s: string): (n: nat)
    ensures n <= |s|
    ensures forall i :: |s| - n <= i < |s| ==> s[i] == '\\'
    ensures n < |s| ==> s[|s| - 1 - n] != '\\'
  {
    if |s| > 0 && s[|s| - 1] == '\\' then TrailingBackslashes(s[..|s| - 1]) + 1 else 0
  }

  /** A character is escaped exactly when an odd number of backslashes
      precede it. */
  lemma {:induction false} EscapedAfterIsOddRun(prefix: string)
    ensures EscapedAfter(prefix) <==> TrailingBackslashes(prefix) % 2 == 1
  {
    if |prefix| > 0 && prefix[|prefix| - 1] == '\\' {
      EscapedAfterIsOddRun(prefix[..|prefix| - 1]);
    }
  }
}
