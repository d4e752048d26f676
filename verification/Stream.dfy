/** The stop checker and the stream assembler as objects. */
module Stream {
  import opened Prelude
  import opened StopModel
  import opened StopProofs
  import opened BpeModel
  import opened Bpe
  import opened StreamModel

  class StopChecker {
    const stops: seq<string>
    const maxLen: nat
    var buffer: string
    var triggered: Option<string>

    ghost predicate Valid()
      reads this
    {
      NonEmpty(stops) && maxLen == MaxLen(stops)
    }

    function State(): Checker
      reads this
    {
      Checker(stops, buffer, triggered)
    }

    /** Empty stop strings are left out. */
    constructor (stopStrings: seq<string>)
      ensures Valid() && State() == Checker(WithoutEmpty(stopStrings), "", None)
    {
      WithoutEmptyIs(stopStrings);
      stops := WithoutEmpty(stopStrings);
      maxLen := MaxLen(WithoutEmpty(stopStrings));
      buffer := "";
      triggered := None;
    }

    /** From the longest candidate down, the first suffix that begins some stop. */
    method LongestPartialSuffix(text: string) returns (size: nat)
      requires Valid()
      ensures size == Hold(text, stops)
    {
      size := if maxLen > 0 then Min(|text|, maxLen - 1) else 0;
      while size > 0
        invariant size <= |text|
        invariant HoldUpTo(text, stops, size) == Hold(text, stops)
      {
        if TailBegins(text, stops, size) {
          return;
        }
        size := size - 1;
      }
    }

    method Feed(text: string) returns (out: string)
      requires Valid()
      modifies this
      ensures Valid()
      ensures (State(), out) == StopModel.Feed(old(State()), text)
    {
      hide Hold, FindFrom, MaxLen;
      if stops == [] {
        return text;
      }
      if triggered.Some? {
        return "";
      }
      buffer := buffer + text;
      var earliest, matched := -1, None;
      for i := 0 to |stops|
        invariant Match(earliest, matched) == Scan(buffer, stops, i)
      {
        var pos := FindFrom(buffer, stops[i], 0);
        if pos != -1 && (earliest == -1 || pos < earliest) {
          earliest, matched := pos, Some(stops[i]);
        }
      }
      if matched.Some? {
        ScanInside(buffer, stops);
        triggered := matched;
        out := buffer[..earliest];
        buffer := "";
        return;
      }
      var hold := LongestPartialSuffix(buffer);
      if hold > 0 {
        out, buffer := buffer[..|buffer| - hold], buffer[|buffer| - hold..];
      } else {
        assert buffer[..|buffer|] == buffer && buffer[|buffer|..] == "";
        out, buffer := buffer, "";
      }
    }

    method Flush() returns (out: string)
      requires Valid()
      modifies this`buffer
      ensures Valid() && out == old(buffer) && State() == old(State()).(buffer := "")
    {
      out, buffer := buffer, "";
    }
  }

  function WithoutEmpty(stopStrings: seq<string>): seq<string> {
    if stopStrings == [] then []
    else (if stopStrings[0] == "" then [] else [stopStrings[0]]) + WithoutEmpty(stopStrings[1..])
  }

  lemma {:induction false} WithoutEmptyIs(stopStrings: seq<string>)
    ensures NonEmpty(WithoutEmpty(stopStrings))
    ensures forall s :: s in WithoutEmpty(stopStrings) <==> s in stopStrings && s != ""
  {
    if stopStrings != [] {
      WithoutEmptyIs(stopStrings[1..]);
    }
  }

  lemma ScanInside(text: string, stops: seq<string>)
    ensures var m := Scan(text, stops, |stops|); m.stop.Some? ==> 0 <= m.pos <= |text|
  {
    ScanFinds(text, stops);
  }

  class StreamAssembler {
    const tokenizer: Tokenizer
    const checker: StopChecker
    var tokenIds: seq<int>
    var decodedUpto: nat
    var text: string

    ghost predicate Valid()
      reads this, tokenizer, checker
    {
      tokenizer.Valid() && checker.Valid()
    }

    ghost function State(): Assembler
      reads this, checker
    {
      Assembler(tokenIds, decodedUpto, checker.State(), text)
    }

    constructor (tokenizer: Tokenizer, stop: seq<string>)
      requires tokenizer.Valid()
      ensures Valid() && fresh(checker) && this.tokenizer == tokenizer
      ensures State() == NewAssembler(WithoutEmpty(stop))
    {
      this.tokenizer := tokenizer;
      checker := new StopChecker(stop);
      tokenIds := [];
      decodedUpto := 0;
      text := "";
    }

    method Push(tokenId: int) returns (chunk: Result<Option<Chunk>>)
      requires Valid()
      modifies this, checker
      ensures Valid()
      ensures (State(), chunk) == StreamModel.Push(tokenizer.tables, old(State()), tokenId)
    {
      hide DecodeIncrement, StopModel.Feed, Usable;
      tokenIds := tokenIds + [tokenId];
      var piece := tokenizer.DecodeIncremental(tokenIds, decodedUpto);
      if piece.Err? {
        return Err(piece.error);
      }
      decodedUpto := |tokenIds|;
      if piece.value == "" {
        return Ok(None);
      }
      var emit := checker.Feed(piece.value);
      text := text + emit;
      if emit == "" && checker.triggered.None? {
        return Ok(None);
      }
      chunk := Ok(Some(Chunk(emit, tokenId, checker.triggered.Some?)));
    }

    method Finalize() returns (tail: string)
      requires Valid()
      modifies this, checker
      ensures Valid()
      ensures (State(), tail) == StreamModel.Finalize(old(State()))
    {
      if checker.triggered.Some? {
        tail := "";
        assert text + tail == text;
      } else {
        tail := checker.Flush();
      }
      text := text + tail;
    }
  }
}
