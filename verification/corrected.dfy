/** The scan loop with the end-of-text test it evidently intends: it also
    stops once the whole text has been read, so a trailing backslash can no
    longer make it emit the text `undefined`. */
module Corrected {
  import opened Chars
  import opened Scanner
  import opened ScanInvariants

  /** The loop, stopping as before or once the position is past the text. */
  function FixedRun(text: string, s: Scanner): (r: Scanner)
    requires Sane(text, s)
    ensures Sane(text, r)
    decreases |text| + 2 - s.pos
  {
    if Running(s) && s.pos <= |text| then FixedRun(text, Advance(text, s)) else s
  }

  function FixedTokens(text: string): seq<Token>
  {
    FixedRun(text, Init(text)).tokens
  }

  lemma {:induction false} FixedRunKeepsInv(text: string, s: Scanner)
    requires Inv(text, s) && s.pos <= |text| + 1
    ensures Inv(text, FixedRun(text, s)) && FixedRun(text, s).pos == |text| + 1
    decreases |text| + 2 - s.pos
  {
    if s.pos <= |text| {
      assert Running(s);
      AdvanceKeepsInv(text, s);
      FixedRunKeepsInv(text, Advance(text, s));
    }
  }

  /** With the corrected stop, the tokens spell every text exactly. */
  lemma FixedTokensPartitionText(text: string)
    ensures Concat(FixedTokens(text)) == text
  {
    InitInv(text);
    FixedRunKeepsInv(text, Init(text));
  }

  /** On a text that does not end in a backslash, the corrected loop emits
      the same tokens as the loop as written. */
  lemma {:induction false} FixedRunAgrees(text: string, s: Scanner)
    requires Sane(text, s) && s.pos <= |text| + 1
    requires |text| == 0 || text[|text| - 1] != '\\'
    ensures FixedRun(text, s) == Run(text, s)
    decreases |text| + 2 - s.pos
  {
    if Running(s) && s.pos <= |text| {
      FixedRunAgrees(text, Advance(text, s));
    }
  }

  lemma FixedTokensAgree(text: string)
    requires |text| == 0 || text[|text| - 1] != '\\'
    ensures FixedTokens(text) == Tokens(text)
  {
    FixedRunAgrees(text, Init(text));
  }
}
