/** The stop checker is right for every way of cutting the text into pieces. */
module StopProofs {
  import opened Prelude
  import opened StopModel

  // ----- the scan finds the first stop -----

  lemma {:induction false} FindFromIsFirst(text: string, stop: string, i: nat)
    ensures var p := FindFrom(text, stop, i);
      && (p == -1 ==> forall q | q >= i :: !At(text, stop, q))
      && (p != -1 ==> p >= i && At(text, stop, p) && forall q | i <= q < p :: !At(text, stop, q))
    decreases |text| - i
  {
    if i + |stop| <= |text| && text[i..i + |stop|] != stop {
      FindFromIsFirst(text, stop, i + 1);
    }
  }

  /** Of the first n stops, the first in the list that occurs at p. */
  ghost predicate FirstAt(text: string, stops: seq<string>, n: nat, p: int, stop: string)
    requires n <= |stops|
  {
    exists i :: 0 <= i < n && stops[i] == stop && At(text, stop, p) && forall j | 0 <= j < i :: !At(text, stops[j], p)
  }

  lemma {:induction false} ScanIsFirst(text: string, stops: seq<string>, n: nat)
    requires n <= |stops|
    ensures var m := Scan(text, stops, n);
      && (m.stop.None? <==> m.pos == -1)
      && (m.pos == -1 ==> forall q, i | 0 <= i < n :: !At(text, stops[i], q))
      && (m.pos != -1 ==>
            && StopAt(text, stops, m.pos) && FirstAt(text, stops, n, m.pos, m.stop.value)
            && forall q, i | 0 <= i < n && q < m.pos :: !At(text, stops[i], q))
  {
    if n > 0 {
      ScanIsFirst(text, stops, n - 1);
      FindFromIsFirst(text, stops[n - 1], 0);
    }
  }

  lemma ScanFinds(text: string, stops: seq<string>)
    ensures var m := Scan(text, stops, |stops|);
      && (m.stop.None? <==> !HasStop(text, stops))
      && (m.stop.Some? ==>
            FirstStop(text, stops, m.pos) && FirstAt(text, stops, |stops|, m.pos, m.stop.value))
  {
    ScanIsFirst(text, stops, |stops|);
  }

  // ----- the hold -----

  lemma {:induction false} HoldUpToIsLongest(text: string, stops: seq<string>, size: nat)
    requires size <= |text|
    ensures var r := HoldUpTo(text, stops, size);
      && (r > 0 ==> TailBegins(text, stops, r))
      && forall k: nat | r < k <= size :: !TailBegins(text, stops, k)
  {
    if size > 0 && !TailBegins(text, stops, size) {
      HoldUpToIsLongest(text, stops, size - 1);
    }
  }

  lemma {:induction false} MaxLenBounds(stops: seq<string>, i: nat)
    requires i < |stops|
    ensures |stops[i]| <= MaxLen(stops)
  {
    if i < |stops| - 1 {
      MaxLenBounds(stops[..|stops| - 1], i);
    }
  }

  /** In a text without a stop the hold is the longest suffix that begins one. */
  lemma HoldIsLongest(text: string, stops: seq<string>)
    requires !HasStop(text, stops)
    ensures var keep := |text| - Hold(text, stops);
      && (keep < |text| ==> CanGrow(text, stops, keep))
      && forall p: nat | p < keep :: !CanGrow(text, stops, p)
  {
    var limit := if MaxLen(stops) > 0 then Min(|text|, MaxLen(stops) - 1) else 0;
    HoldUpToIsLongest(text, stops, limit);
    var keep := |text| - Hold(text, stops);
    if keep < |text| {
      var i :| 0 <= i < |stops| && text[keep..] <= stops[i];
      assert !At(text, stops[i], keep) by {
        assert !StopAt(text, stops, keep);
      }
      assert text[keep..] < stops[i];
    }
    forall p: nat | p < keep ensures !CanGrow(text, stops, p) {
      GrowthIsTail(text, stops, p);
      assert |text| - p <= limit ==> !TailBegins(text, stops, |text| - p);
    }
  }

  lemma GrowthIsTail(text: string, stops: seq<string>, p: nat)
    requires p < |text|
    ensures CanGrow(text, stops, p) ==> TailBegins(text, stops, |text| - p) && |text| - p < MaxLen(stops)
  {
    if CanGrow(text, stops, p) {
      var i :| 0 <= i < |stops| && text[p..] < stops[i];
      MaxLenBounds(stops, i);
      assert |text| - (|text| - p) == p;
    }
  }

  // ----- one feed -----

  /** Nothing has matched: fed == emitted + buffer, no stop occurs in what was fed, and the
      buffer is exactly its longest suffix that some continuation could turn into a stop. */
  ghost predicate Quiet(c: Checker, fed: string, emitted: string) {
    && c.triggered.None?
    && fed == emitted + c.buffer
    && !HasStop(fed, c.stops)
    && (c.buffer != "" ==> CanGrow(fed, c.stops, |emitted|))
    && (forall p: nat | p < |emitted| :: !CanGrow(fed, c.stops, p))
  }

  /** Something has matched: emitted is the text before the first stop of `seen`. */
  ghost predicate Stopped(c: Checker, seen: string, emitted: string) {
    && c.triggered.Some? && c.buffer == ""
    && |emitted| <= |seen| && emitted == seen[..|emitted|]
    && FirstStop(seen, c.stops, |emitted|)
    && FirstAt(seen, c.stops, |c.stops|, |emitted|, c.triggered.value)
  }

  /** A stop that starts in what was fed before either occurs there or was growing there. */
  lemma StartsEarlier(stops: seq<string>, fed: string, text: string, p: nat)
    requires p < |fed|
    ensures StopAt(fed + text, stops, p) ==> StopAt(fed, stops, p) || CanGrow(fed, stops, p)
    ensures CanGrow(fed + text, stops, p) ==> CanGrow(fed, stops, p)
  {
    var all := fed + text;
    if StopAt(all, stops, p) {
      var i :| 0 <= i < |stops| && At(all, stops[i], p);
      var end := p + |stops[i]|;
      if end <= |fed| {
        assert fed[p..end] == all[p..end];
        assert At(fed, stops[i], p);
      } else {
        assert fed[p..] == all[p..end][..|fed| - p];
        assert fed[p..] < stops[i];
      }
    }
    if CanGrow(all, stops, p) {
      var i :| 0 <= i < |stops| && all[p..] < stops[i];
      assert fed[p..] == all[p..][..|fed| - p];
      assert fed[p..] < stops[i];
    }
  }

  /** Occurrences in the buffer are the occurrences in the whole text, shifted. */
  lemma Shifted(stops: seq<string>, before: string, buffer: string, p: int)
    requires p >= |before|
    ensures StopAt(before + buffer, stops, p) <==> StopAt(buffer, stops, p - |before|)
    ensures p <= |before + buffer| ==>
      (CanGrow(before + buffer, stops, p) <==> CanGrow(buffer, stops, p - |before|))
  {
    var all := before + buffer;
    forall i | 0 <= i < |stops| ensures At(all, stops[i], p) <==> At(buffer, stops[i], p - |before|) {
      if p + |stops[i]| <= |all| {
        assert all[p..p + |stops[i]|] == buffer[p - |before|..p - |before| + |stops[i]|];
      }
    }
    if p <= |all| {
      assert all[p..] == buffer[p - |before|..];
    }
  }

  /** Feeding one more piece to a quiet checker: it stops exactly when a stop occurs in all
      that was fed, having emitted the text before the first one; otherwise it stays quiet. */
  lemma FeedKeeps(c: Checker, fed: string, emitted: string, text: string)
    requires c.stops != [] && Quiet(c, fed, emitted)
    ensures var (c', out) := Feed(c, text);
      && c'.stops == c.stops
      && if HasStop(fed + text, c.stops) then Stopped(c', fed + text, emitted + out)
         else Quiet(c', fed + text, emitted + out)
  {
    var all, buffer := fed + text, c.buffer + text;
    assert all == emitted + buffer;
    ScanFinds(buffer, c.stops);
    forall p: nat | p < |emitted| ensures !StopAt(all, c.stops, p) && !CanGrow(all, c.stops, p) {
      StartsEarlier(c.stops, fed, text, p);
      assert !StopAt(fed, c.stops, p);
    }
    forall p: int | p >= |emitted|
      ensures StopAt(all, c.stops, p) <==> StopAt(buffer, c.stops, p - |emitted|)
      ensures p <= |all| ==> (CanGrow(all, c.stops, p) <==> CanGrow(buffer, c.stops, p - |emitted|))
    {
      Shifted(c.stops, emitted, buffer, p);
    }
    var m := Scan(buffer, c.stops, |c.stops|);
    if m.stop.Some? {
      FeedStops(c, fed, emitted, text, m.pos);
    } else {
      assert !HasStop(all, c.stops);
      FeedHolds(c, fed, emitted, text);
    }
  }

  /** Text in front does not change which stop is the first in the list. */
  lemma SameFirst(stops: seq<string>, before: string, buffer: string, p: nat, stop: string)
    requires FirstAt(buffer, stops, |stops|, p, stop)
    ensures FirstAt(before + buffer, stops, |stops|, |before| + p, stop)
  {
    forall s ensures At(before + buffer, s, |before| + p) <==> At(buffer, s, p) {
      if p + |s| <= |buffer| {
        assert (before + buffer)[|before| + p..|before| + p + |s|] == buffer[p..p + |s|];
      }
    }
  }

  lemma FeedStops(c: Checker, fed: string, emitted: string, text: string, pos: int)
    requires c.stops != [] && c.triggered.None? && fed == emitted + c.buffer
    requires var buffer := c.buffer + text;
      Scan(buffer, c.stops, |c.stops|).stop.Some? && Scan(buffer, c.stops, |c.stops|).pos == pos
      && FirstStop(buffer, c.stops, pos)
      && FirstAt(buffer, c.stops, |c.stops|, pos, Scan(buffer, c.stops, |c.stops|).stop.value)
    requires forall p: nat | p < |emitted| :: !StopAt(fed + text, c.stops, p)
    ensures var (c', out) := Feed(c, text);
      c'.stops == c.stops && HasStop(fed + text, c.stops) && Stopped(c', fed + text, emitted + out)
  {
    hide FirstAt;
    var all, buffer := fed + text, c.buffer + text;
    assert all == emitted + buffer;
    var (c', out) := Feed(c, text);
    assert 0 <= pos <= |buffer|;
    assert out == buffer[..pos];
    Shifted(c.stops, emitted, buffer, |emitted| + pos);
    assert emitted + out == all[..|emitted| + pos];
    SameFirst(c.stops, emitted, buffer, pos, c'.triggered.value);
    forall q | q < |emitted| + pos ensures !StopAt(all, c.stops, q) {
      if q >= |emitted| {
        Shifted(c.stops, emitted, buffer, q);
      }
    }
  }

  lemma FeedHolds(c: Checker, fed: string, emitted: string, text: string)
    requires c.stops != [] && c.triggered.None? && fed == emitted + c.buffer
    requires Scan(c.buffer + text, c.stops, |c.stops|).stop.None? && !HasStop(c.buffer + text, c.stops)
    requires !HasStop(fed + text, c.stops)
    requires forall p: nat | p < |emitted| :: !CanGrow(fed + text, c.stops, p)
    ensures var (c', out) := Feed(c, text);
      c'.stops == c.stops && Quiet(c', fed + text, emitted + out)
  {
    hide CanGrow, HasStop, Scan, Hold, StopAt;
    var all, buffer := fed + text, c.buffer + text;
    assert all == emitted + buffer;
    HoldIsLongest(buffer, c.stops);
    var keep := |buffer| - Hold(buffer, c.stops);
    assert all == (emitted + buffer[..keep]) + buffer[keep..];
    Shifted(c.stops, emitted, buffer, |emitted| + keep);
    forall p: nat | p < |emitted| + keep ensures !CanGrow(all, c.stops, p) {
      if p >= |emitted| {
        Shifted(c.stops, emitted, buffer, p);
      }
    }
  }

  /** While nothing has matched, the buffer is no longer and no shorter than it must be: no
      continuation can start a stop in what was emitted, and some continuation does turn a
      non-empty buffer into a stop. */
  lemma HoldIsExact(c: Checker, fed: string, emitted: string)
    requires Quiet(c, fed, emitted)
    ensures forall more: string, p: nat | StopAt(fed + more, c.stops, p) :: p >= |emitted|
    ensures c.buffer != "" ==> exists more: string :: StopAt(fed + more, c.stops, |emitted|)
  {
    forall more: string, p: nat | p < |emitted| ensures !StopAt(fed + more, c.stops, p) {
      StartsEarlier(c.stops, fed, more, p);
      assert !StopAt(fed, c.stops, p);
    }
    if c.buffer != "" {
      var i :| 0 <= i < |c.stops| && fed[|emitted|..] < c.stops[i];
      var more := c.stops[i][|c.buffer|..];
      assert (fed + more)[|emitted|..|emitted| + |c.stops[i]|] == c.buffer + more;
      assert At(fed + more, c.stops[i], |emitted|);
      assert StopAt(fed + more, c.stops, |emitted|);
    }
  }

  // ----- a whole stream -----

  lemma {:induction false} StoppedStays(c: Checker, pieces: seq<string>)
    requires c.stops != [] && c.triggered.Some?
    ensures FeedAll(c, pieces) == (c, "")
    decreases |pieces|
  {
    if pieces != [] {
      StoppedStays(c, pieces[1..]);
      assert Feed(c, pieces[0]) == (c, "") && "" + "" == "";
    }
  }

  /** The checker stopped while reading piece n - 1: the first n pieces contain a stop, fewer do
      not, and what was emitted is the text before the first stop of those n pieces. */
  ghost predicate StoppedAfter(stops: seq<string>, fed: string, pieces: seq<string>, n: nat, out: string) {
    && 1 <= n <= |pieces|
    && !HasStop(fed + Concat(pieces[..n - 1]), stops)
    && var seen := fed + Concat(pieces[..n]);
    |out| <= |seen| && out == seen[..|out|] && FirstStop(seen, stops, |out|)
  }

  lemma {:induction false} FeedAllKeeps(c: Checker, fed: string, emitted: string, pieces: seq<string>)
    requires c.stops != [] && Quiet(c, fed, emitted)
    ensures var (c', out) := FeedAll(c, pieces);
      && c'.stops == c.stops
      && (c'.triggered.Some? <==> HasStop(fed + Concat(pieces), c.stops))
      && (c'.triggered.None? ==> Quiet(c', fed + Concat(pieces), emitted + out))
      && (c'.triggered.Some? ==> exists n: nat :: StoppedAfter(c.stops, fed, pieces, n, emitted + out))
    decreases |pieces|
  {
    hide HasStop, CanGrow, Feed, StoppedAfter, FirstStop;
    if pieces == [] {
      assert fed + Concat(pieces) == fed && emitted + "" == emitted;
    } else {
      var (c1, out1) := Feed(c, pieces[0]);
      var (c2, rest) := FeedAll(c1, pieces[1..]);
      FeedKeeps(c, fed, emitted, pieces[0]);
      assert emitted + (out1 + rest) == (emitted + out1) + rest;
      assert fed + Concat(pieces) == (fed + pieces[0]) + Concat(pieces[1..]);
      if c1.triggered.Some? {
        StoppedStays(c1, pieces[1..]);
        assert out1 + "" == out1;
        StopsAtOnce(c.stops, fed, pieces, emitted + out1);
      } else {
        FeedAllKeeps(c1, fed + pieces[0], emitted + out1, pieces[1..]);
        if c2.triggered.Some? {
          var n: nat :| StoppedAfter(c.stops, fed + pieces[0], pieces[1..], n, emitted + out1 + rest);
          StopsLater(c.stops, fed, pieces, n, emitted + out1 + rest);
        }
      }
    }
  }

  lemma StopsAtOnce(stops: seq<string>, fed: string, pieces: seq<string>, out: string)
    requires pieces != [] && !HasStop(fed, stops)
    requires var seen := fed + pieces[0];
      |out| <= |seen| && out == seen[..|out|] && FirstStop(seen, stops, |out|)
    ensures StoppedAfter(stops, fed, pieces, 1, out)
    ensures HasStop(fed + pieces[0] + Concat(pieces[1..]), stops)
  {
    ConcatOne(pieces);
    assert fed + "" == fed;
    StillThere(stops, fed + pieces[0], Concat(pieces[1..]), |out|);
  }

  lemma StopsLater(stops: seq<string>, fed: string, pieces: seq<string>, n: nat, out: string)
    requires pieces != [] && StoppedAfter(stops, fed + pieces[0], pieces[1..], n, out)
    ensures StoppedAfter(stops, fed, pieces, n + 1, out)
  {
    ConcatSplit(pieces, n + 1);
    ConcatSplit(pieces, n);
    assert fed + (pieces[0] + Concat(pieces[1..][..n])) == fed + pieces[0] + Concat(pieces[1..][..n]);
    assert fed + (pieces[0] + Concat(pieces[1..][..n - 1])) == fed + pieces[0] + Concat(pieces[1..][..n - 1]);
  }

  lemma ConcatOne(pieces: seq<string>)
    requires pieces != []
    ensures Concat(pieces[..1]) == pieces[0] && Concat(pieces[..0]) == ""
  {
    assert pieces[..1] == [pieces[0]];
  }

  lemma ConcatSplit(pieces: seq<string>, n: nat)
    requires 1 <= n <= |pieces|
    ensures Concat(pieces[..n]) == pieces[0] + Concat(pieces[1..][..n - 1])
  {
    assert pieces[..n][1..] == pieces[1..][..n - 1];
  }

  /** A stop that occurs stays when more text follows. */
  lemma StillThere(stops: seq<string>, text: string, more: string, p: int)
    requires StopAt(text, stops, p)
    ensures StopAt(text + more, stops, p)
  {
    var i :| 0 <= i < |stops| && At(text, stops[i], p);
    assert (text + more)[p..p + |stops[i]|] == text[p..p + |stops[i]|];
    assert At(text + more, stops[i], p);
  }

  /** What a stream puts on the wire, for every way of cutting the text: all of it when no stop
      occurs, and otherwise the text before the first stop of the shortest run of pieces that
      contains one. */
  lemma OutputIs(stops: seq<string>, pieces: seq<string>)
    requires NonEmpty(stops)
    ensures !HasStop(Concat(pieces), stops) ==> Output(stops, pieces) == Concat(pieces)
    ensures HasStop(Concat(pieces), stops) ==> exists n: nat :: StoppedAt(stops, pieces, n, Output(stops, pieces))
  {
    hide HasStop, FirstStop, CanGrow, Concat, FeedAll, StoppedAt, StoppedAfter;
    var c := Checker(stops, "", None);
    if stops == [] {
      NoStops(c, pieces);
      assert Concat(pieces) + "" == Concat(pieces);
    } else {
      StartsQuiet(stops);
      FeedAllKeeps(c, "", "", pieces);
      var (c', out) := FeedAll(c, pieces);
      assert "" + Concat(pieces) == Concat(pieces) && "" + out == out;
      if c'.triggered.Some? {
        var n: nat :| StoppedAfter(stops, "", pieces, n, "" + out);
        AfterNothing(stops, pieces, n, out);
        assert StoppedAt(stops, pieces, n, Output(stops, pieces));
      }
    }
  }

  lemma StartsQuiet(stops: seq<string>)
    requires NonEmpty(stops)
    ensures Quiet(Checker(stops, "", None), "", "")
  {
    forall p, i | 0 <= i < |stops| ensures !At("", stops[i], p) {
    }
  }

  lemma AfterNothing(stops: seq<string>, pieces: seq<string>, n: nat, out: string)
    requires StoppedAfter(stops, "", pieces, n, out)
    ensures StoppedAt(stops, pieces, n, out)
  {
    assert "" + Concat(pieces[..n]) == Concat(pieces[..n]);
    assert "" + Concat(pieces[..n - 1]) == Concat(pieces[..n - 1]);
  }

  ghost predicate StoppedAt(stops: seq<string>, pieces: seq<string>, n: nat, out: string) {
    && 1 <= n <= |pieces|
    && !HasStop(Concat(pieces[..n - 1]), stops)
    && |out| <= |Concat(pieces[..n])| && out == Concat(pieces[..n])[..|out|]
    && FirstStop(Concat(pieces[..n]), stops, |out|)
  }

  lemma {:induction false} NoStops(c: Checker, pieces: seq<string>)
    requires c.stops == []
    ensures FeedAll(c, pieces) == (c, Concat(pieces))
    ensures !HasStop(Concat(pieces), c.stops)
    decreases |pieces|
  {
    if pieces != [] {
      NoStops(c, pieces[1..]);
    }
  }

  /** A stop in a part of a text is a stop of the text, at the same place. */
  lemma PartStops(text: string, stops: seq<string>, n: nat, p: int)
    requires n <= |text| && NonEmpty(stops)
    ensures StopAt(text[..n], stops, p) ==> StopAt(text, stops, p) && p < n
  {
    assert text == text[..n] + text[n..];
    if StopAt(text[..n], stops, p) {
      StillThere(stops, text[..n], text[n..], p);
    }
  }

  /** No stop ever reaches the wire. */
  lemma OutputHasNoStop(stops: seq<string>, pieces: seq<string>)
    requires NonEmpty(stops)
    ensures !HasStop(Output(stops, pieces), stops)
  {
    OutputIs(stops, pieces);
    var out := Output(stops, pieces);
    if HasStop(Concat(pieces), stops) {
      var n: nat :| StoppedAt(stops, pieces, n, out);
      forall p ensures !StopAt(out, stops, p) {
        PartStops(Concat(pieces[..n]), stops, |out|, p);
      }
    }
  }

  // ----- independence of the cuts -----

  /** However the same text is cut, the same text goes out. */
  ghost predicate CutIndependent(stops: seq<string>) {
    forall a: seq<string>, b: seq<string> | Concat(a) == Concat(b) :: Output(stops, a) == Output(stops, b)
  }

  /** Stop j occurs inside stop i at offset o > 0 and ends before stop i does. */
  predicate Nested(stops: seq<string>, i: nat, j: nat, o: nat) {
    && i < |stops| && j < |stops| && 0 < o
    && o + |stops[j]| < |stops[i]| && At(stops[i], stops[j], o)
  }

  /** Whenever one stop is nested in another, some stop that begins the outer one ends no
      later than the inner one. */
  ghost predicate NestingShadowed(stops: seq<string>) {
    forall i: nat, j: nat, o: nat | Nested(stops, i, j, o) ::
      exists k :: 0 <= k < |stops| && |stops[k]| <= o + |stops[j]| && stops[k] <= stops[i]
  }

  /** The first stop of a run of pieces is then the first stop of the whole text. */
  lemma FirstOfPart(stops: seq<string>, part: string, more: string, p: int)
    requires NestingShadowed(stops) && NonEmpty(stops) && FirstStop(part, stops, p)
    ensures FirstStop(part + more, stops, p)
  {
    var all := part + more;
    StillThere(stops, part, more, p);
    var j: nat :| j < |stops| && At(part, stops[j], p);
    forall q | q < p ensures !StopAt(all, stops, q) {
      EarlierShows(stops, part, more, p, q, j);
    }
  }

  /** A stop that starts before one the part contains is, or hides, one the part contains. */
  lemma EarlierShows(stops: seq<string>, part: string, more: string, p: int, q: int, j: nat)
    requires NestingShadowed(stops) && q < p && j < |stops| && At(part, stops[j], p)
    ensures StopAt(part + more, stops, q) ==> StopAt(part, stops, q)
  {
    var all := part + more;
    if StopAt(all, stops, q) {
      var i: nat :| i < |stops| && At(all, stops[i], q);
      var s, t, o := stops[i], stops[j], p - q;
      if q + |s| <= |part| {
        SliceOfPart(part, more, q, q + |s|);
        assert At(part, s, q);
      } else {
        SliceOfSlice(all, q, q + |s|, o, o + |t|);
        SliceOfPart(part, more, p, p + |t|);
        assert Nested(stops, i, j, o);
        var k :| 0 <= k < |stops| && |stops[k]| <= o + |t| && stops[k] <= s;
        SliceOfSlice(all, q, q + |s|, 0, |stops[k]|);
        SliceOfPart(part, more, q, q + |stops[k]|);
        assert At(part, stops[k], q);
      }
    }
  }

  lemma ShadowedOutput(stops: seq<string>, pieces: seq<string>)
    requires NestingShadowed(stops) && NonEmpty(stops) && HasStop(Concat(pieces), stops)
    ensures var out := Output(stops, pieces);
      && |out| <= |Concat(pieces)| && out == Concat(pieces)[..|out|]
      && FirstStop(Concat(pieces), stops, |out|)
  {
    OutputIs(stops, pieces);
    var out := Output(stops, pieces);
    var n: nat :| StoppedAt(stops, pieces, n, out);
    ConcatParts(pieces, n);
    FirstOfPart(stops, Concat(pieces[..n]), Concat(pieces[n..]), |out|);
  }

  /** A stop nested in another and not shadowed betrays where the text was cut. */
  lemma UnshadowedDiffers(stops: seq<string>, i: nat, j: nat, o: nat)
    requires NonEmpty(stops) && Nested(stops, i, j, o)
    requires forall k | 0 <= k < |stops| && |stops[k]| <= o + |stops[j]| :: !(stops[k] <= stops[i])
    ensures var s, e := stops[i], o + |stops[j]|;
      Concat([s]) == Concat([s[..e], s[e..]]) && Output(stops, [s]) != Output(stops, [s[..e], s[e..]])
  {
    hide Output, At;
    var s, e := stops[i], o + |stops[j]|;
    WholeStop(stops, i);
    CutStop(stops, s, e, j, o);
    ConcatPair(s[..e], s[e..]);
    ConcatPair(s, "");
    assert s[..e] + s[e..] == s;
  }

  lemma ConcatPair(a: string, b: string)
    ensures Concat([a]) == a && Concat([a, b]) == a + b
  {
    assert a + "" == a && b + "" == b;
    assert [a, b][1..] == [b];
    assert Concat([b]) == b;
  }

  lemma WholeStop(stops: seq<string>, i: nat)
    requires NonEmpty(stops) && i < |stops|
    ensures Output(stops, [stops[i]]) == ""
  {
    var s := stops[i];
    var whole := [s];
    assert Concat(whole) == s + "" == s;
    assert At(s, s, 0);
    assert StopAt(s, stops, 0);
    OutputIs(stops, whole);
    var n: nat :| StoppedAt(stops, whole, n, Output(stops, whole));
    assert whole[..n] == whole;
  }

  lemma CutStop(stops: seq<string>, s: string, e: nat, j: nat, o: nat)
    requires NonEmpty(stops) && j < |stops| && At(s, stops[j], o) && e == o + |stops[j]| <= |s|
    requires forall k | 0 <= k < |stops| && |stops[k]| <= e :: !(stops[k] <= s)
    ensures Output(stops, [s[..e], s[e..]]) != ""
  {
    hide FeedAll, Feed, At, Concat;
    var cut := [s[..e], s[e..]];
    HeadStops(stops, s, e, j, o);
    ConcatPair(s[..e], s[e..]);
    StillThere(stops, s[..e], s[e..], o);
    OutputIs(stops, cut);
    var m: nat :| StoppedAt(stops, cut, m, Output(stops, cut));
    assert cut[..1] == [s[..e]];
  }

  /** The head of s that ends with stop j contains a stop, but none at its start. */
  lemma HeadStops(stops: seq<string>, s: string, e: nat, j: nat, o: nat)
    requires j < |stops| && At(s, stops[j], o) && e == o + |stops[j]|
    requires forall k | 0 <= k < |stops| && |stops[k]| <= e :: !(stops[k] <= s)
    ensures StopAt(s[..e], stops, o) && !StopAt(s[..e], stops, 0)
  {
    assert s[..e][o..e] == s[o..e];
    assert At(s[..e], stops[j], o);
    forall k | 0 <= k < |stops| ensures !At(s[..e], stops[k], 0) {
      if |stops[k]| <= e {
        assert s[..e][0..|stops[k]|] == s[..|stops[k]|];
      }
    }
  }

  /** The output is independent of how the text is cut exactly when every nesting of one stop
      in another is shadowed. */
  lemma CutIndependence(stops: seq<string>)
    requires NonEmpty(stops)
    ensures CutIndependent(stops) <==> NestingShadowed(stops)
  {
    if NestingShadowed(stops) {
      forall a: seq<string>, b: seq<string> | Concat(a) == Concat(b) ensures Output(stops, a) == Output(stops, b) {
        OutputIs(stops, a);
        OutputIs(stops, b);
        if HasStop(Concat(a), stops) {
          ShadowedOutput(stops, a);
          ShadowedOutput(stops, b);
        }
      }
    } else {
      var i: nat, j: nat, o: nat :| Nested(stops, i, j, o)
        && forall k | 0 <= k < |stops| && |stops[k]| <= o + |stops[j]| :: !(stops[k] <= stops[i]);
      UnshadowedDiffers(stops, i, j, o);
    }
  }

  /** The text "abc" with the stops "abc" and "b": whole it serves nothing, cut after "ab" it serves "a". */
  lemma NestedStopShows()
    ensures Output(["abc", "b"], ["abc"]) != Output(["abc", "b"], ["ab", "c"])
    ensures !CutIndependent(["abc", "b"])
  {
    hide Output, Concat;
    var stops := ["abc", "b"];
    assert At("abc", "b", 1) by {
      assert "abc"[1..] == "bc" && "bc"[..1] == "b";
    }
    assert "b"[0] != "abc"[0];
    UnshadowedDiffers(stops, 0, 1, 1);
    assert "abc"[..2] == "ab" && "abc"[2..] == "c";
  }

  /** In particular it is when no stop is nested in another. */
  lemma NoNestingIsIndependent(stops: seq<string>)
    requires NonEmpty(stops) && forall i: nat, j: nat, o: nat :: !Nested(stops, i, j, o)
    ensures CutIndependent(stops)
  {
    CutIndependence(stops);
  }
}
