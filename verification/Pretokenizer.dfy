/** The pretokenizer's split: a regular expression with ordered alternatives, matched again and
    again from the left. The character tables are a parameter. */
module Pretokenizer {
  import opened Prelude

  /** Every character is exactly one of these to the expression: white space, digit,
      underscore, another word character, or none of them. */
  datatype Kind = Space | Digit | Underscore | Letter | Other

  /** How many characters from position i on are of the kind. */
  function Run(kind: char -> Kind, text: string, i: nat, k: Kind): (n: nat)
    requires i <= |text|
    ensures i + n <= |text|
    decreases |text| - i
  {
    if i < |text| && kind(text[i]) == k then 1 + Run(kind, text, i + 1, k) else 0
  }

  /** An apostrophe and one of s, t, re, ve, m, ll, d. */
  function Contraction(text: string, i: nat): (n: nat)
    requires i < |text|
    ensures i + n <= |text|
  {
    var rest := text[i..];
    if "'s" <= rest || "'t" <= rest then 2
    else if "'re" <= rest || "'ve" <= rest then 3
    else if "'m" <= rest then 2
    else if "'ll" <= rest then 3
    else if "'d" <= rest then 2
    else 0
  }

  /** An optional blank and at least one character of the kind. */
  function Word(kind: char -> Kind, text: string, i: nat, k: Kind): (n: nat)
    requires i < |text|
    ensures i + n <= |text|
  {
    if text[i] == ' ' && Run(kind, text, i + 1, k) > 0 then 1 + Run(kind, text, i + 1, k)
    else Run(kind, text, i, k)
  }

  /** White space not followed by anything else: all of it at the end of the text, and
      otherwise all but the last character of it. */
  function Blank(kind: char -> Kind, text: string, i: nat): (n: nat)
    requires i < |text|
    ensures i + n <= |text|
  {
    var n := Run(kind, text, i, Space);
    if i + n == |text| || n == 0 then n else n - 1
  }

  /** The length of the match at position i: the first alternative that matches. */
  function Match(kind: char -> Kind, text: string, i: nat): (n: nat)
    requires i < |text|
    ensures 0 < n && i + n <= |text|
  {
    if Contraction(text, i) > 0 then Contraction(text, i)
    else if Word(kind, text, i, Letter) > 0 then Word(kind, text, i, Letter)
    else if Word(kind, text, i, Digit) > 0 then Word(kind, text, i, Digit)
    else if Word(kind, text, i, Other) > 0 then Word(kind, text, i, Other)
    else if Word(kind, text, i, Underscore) > 0 then Word(kind, text, i, Underscore)
    else if Blank(kind, text, i) > 0 then Blank(kind, text, i)
    else if Run(kind, text, i, Space) > 0 then Run(kind, text, i, Space)
    else 1
  }

  function SplitFrom(kind: char -> Kind, text: string, i: nat): seq<string>
    requires i <= |text|
    decreases |text| - i
  {
    if i == |text| then []
    else
      var n := Match(kind, text, i);
      [text[i..i + n]] + SplitFrom(kind, text, i + n)
  }

  function Split(kind: char -> Kind, text: string): seq<string> {
    SplitFrom(kind, text, 0)
  }

  function Splitter(kind: char -> Kind): string -> seq<string> {
    text => Split(kind, text)
  }

  /** No character is lost: the chunks, none of them empty, are the text. */
  lemma {:induction false} SplitSpells(kind: char -> Kind, text: string, i: nat)
    requires i <= |text|
    ensures Concat(SplitFrom(kind, text, i)) == text[i..]
    ensures forall k :: 0 <= k < |SplitFrom(kind, text, i)| ==> SplitFrom(kind, text, i)[k] != ""
    decreases |text| - i
  {
    hide Match;
    if i < |text| {
      var n := Match(kind, text, i);
      SplitSpells(kind, text, i + n);
      assert text[i..] == text[i..i + n] + text[i + n..];
    }
  }

  lemma SplitIsCut(kind: char -> Kind, text: string)
    ensures Concat(Split(kind, text)) == text
  {
    SplitSpells(kind, text, 0);
    assert text[0..] == text;
  }
}
