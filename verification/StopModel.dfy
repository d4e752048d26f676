/** Stop strings in streamed text: what a checker that sees the text piece by piece does,
    and what it should do. Stop lists hold non-empty strings. */
module StopModel {
  import opened Prelude

  // ----- occurrences -----

  predicate At(text: string, stop: string, p: int) {
    0 <= p && p + |stop| <= |text| && text[p..p + |stop|] == stop
  }

  predicate StopAt(text: string, stops: seq<string>, p: int) {
    exists i :: 0 <= i < |stops| && At(text, stops[i], p)
  }

  ghost predicate HasStop(text: string, stops: seq<string>) {
    exists p :: StopAt(text, stops, p)
  }

  /** p is where the first stop of the text starts. */
  ghost predicate FirstStop(text: string, stops: seq<string>, p: int) {
    StopAt(text, stops, p) && forall q | q < p :: !StopAt(text, stops, q)
  }

  /** The text from p on is the beginning, and not all, of some stop. */
  predicate CanGrow(text: string, stops: seq<string>, p: nat)
    requires p <= |text|
  {
    exists i :: 0 <= i < |stops| && text[p..] < stops[i]
  }

  predicate NonEmpty(stops: seq<string>) {
    forall i :: 0 <= i < |stops| ==> stops[i] != ""
  }

  // ----- the checker -----

  /** str.find, searching from position i. */
  function FindFrom(text: string, stop: string, i: nat): (p: int)
    decreases |text| - i
  {
    if i + |stop| > |text| then -1
    else if text[i..i + |stop|] == stop then i
    else FindFrom(text, stop, i + 1)
  }

  datatype Match = Match(pos: int, stop: Option<string>)

  /** The scan over the first n stops: the earliest position, and the first stop found there. */
  function Scan(text: string, stops: seq<string>, n: nat): Match
    requires n <= |stops|
  {
    if n == 0 then Match(-1, None)
    else
      var m := Scan(text, stops, n - 1);
      var pos := FindFrom(text, stops[n - 1], 0);
      if pos != -1 && (m.pos == -1 || pos < m.pos) then Match(pos, Some(stops[n - 1])) else m
  }

  /** The last `size` characters of the text begin some stop. */
  predicate TailBegins(text: string, stops: seq<string>, size: nat) {
    size <= |text| && exists i :: 0 <= i < |stops| && text[|text| - size..] <= stops[i]
  }

  /** The longest suffix of at most `size` characters that begins some stop. */
  function HoldUpTo(text: string, stops: seq<string>, size: nat): (r: nat)
    requires size <= |text|
    ensures r <= size
  {
    if size == 0 then 0
    else if TailBegins(text, stops, size) then size
    else HoldUpTo(text, stops, size - 1)
  }

  function MaxLen(stops: seq<string>): nat {
    if stops == [] then 0 else Max(MaxLen(stops[..|stops| - 1]), |stops[|stops| - 1]|)
  }

  function Hold(text: string, stops: seq<string>): (r: nat)
    ensures r <= |text|
  {
    var limit := if MaxLen(stops) > 0 then Min(|text|, MaxLen(stops) - 1) else 0;
    HoldUpTo(text, stops, limit)
  }

  datatype Checker = Checker(stops: seq<string>, buffer: string, triggered: Option<string>)

  /** What feeding a piece of text emits, and the checker afterwards. */
  function Feed(c: Checker, text: string): (Checker, string) {
    if c.stops == [] then (c, text)
    else if c.triggered.Some? then (c, "")
    else
      var buffer := c.buffer + text;
      var m := Scan(buffer, c.stops, |c.stops|);
      if m.stop.Some? then (c.(buffer := "", triggered := m.stop), buffer[..Max(0, Min(m.pos, |buffer|))])
      else
        var keep := |buffer| - Hold(buffer, c.stops);
        (c.(buffer := buffer[keep..]), buffer[..keep])
  }

  /** Feeding the pieces one after another, and all that was emitted. */
  function FeedAll(c: Checker, pieces: seq<string>): (Checker, string)
    decreases |pieces|
  {
    if pieces == [] then (c, "")
    else
      var (c1, out) := Feed(c, pieces[0]);
      var (c2, rest) := FeedAll(c1, pieces[1..]);
      (c2, out + rest)
  }

  /** Everything a stream of pieces puts on the wire, the final flush included: `finalize`
      flushes only a checker that has not stopped. */
  function Output(stops: seq<string>, pieces: seq<string>): string {
    var (c, out) := FeedAll(Checker(stops, "", None), pieces);
    if c.triggered.Some? then out else out + c.buffer
  }
}
