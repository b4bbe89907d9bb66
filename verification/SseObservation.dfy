/**
  What the framing observer knows of a stream (src/sse_framing.rs): its state is
  what its own reading of the lines makes it, and stopping early costs nothing.
 */
module SseObservation {
  import opened Foundation
  import opened EventStream
  import opened SseFraming

  // ---------- the observer follows the stream ----------

  function ItemsOf(lines: seq<seq<byte>>): (items: seq<Item>)
    ensures |items| == |lines|
  {
    seq(|lines|, i requires 0 <= i < |lines| => ItemOf(lines[i]))
  }

  /** The payloads the observer's own reading of the lines dispatches. */
  function Seen(s: seq<byte>): seq<seq<byte>> {
    Payloads(ItemsOf(Lines(s)), [])
  }

  /** The answers are those the payloads give. */
  ghost predicate Judged(parse: Parser, w: Watch, payloads: seq<seq<byte>>) {
    && w.chatId == FirstId(parse, payloads) && w.modelId == FirstModel(parse, payloads)
    && w.sawTerminal == AnyTerminal(parse, w.protocol, payloads)
    && w.sawError == AnyError(parse, w.protocol, payloads)
    && IsHighest(parse, payloads, w.lastSequence)
  }

  /** What the observer holds of a stream whose terminated lines are `lines`. */
  ghost predicate Has(parse: Parser, w: Watch, lines: seq<seq<byte>>) {
    var items := ItemsOf(lines);
    && w.eventData == Pending(items, []) && w.midEvent == InEvent(items, false)
    && Judged(parse, w, Payloads(items, []))
  }

  /** The observer's whole state is what the stream `s` makes it. */
  ghost predicate Follows(parse: Parser, w: Watch, s: seq<byte>) {
    !w.failed && w.lineBuffer == Tail(s) && w.pendingCr == EndsWith(s, CR) && Has(parse, w, Lines(s))
  }

  lemma {:induction false} FirstsConcat(parse: Parser, a: seq<seq<byte>>, b: seq<seq<byte>>)
    ensures FirstId(parse, a + b) == if FirstId(parse, a).Some? then FirstId(parse, a) else FirstId(parse, b)
    ensures FirstModel(parse, a + b) == if FirstModel(parse, a).Some? then FirstModel(parse, a) else FirstModel(parse, b)
  {
    if a == [] {
      assert a + b == b;
    } else {
      assert (a + b)[1..] == a[1..] + b;
      FirstsConcat(parse, a[1..], b);
    }
  }

  lemma FirstsOfOne(parse: Parser, p: seq<byte>)
    ensures var f := Known(parse, p);
            && FirstId(parse, [p]) == (if f.Some? then f.value.id else None)
            && FirstModel(parse, [p]) == (if f.Some? then f.value.model else None)
  {
    assert [p][1..] == [];
  }

  lemma AnySnoc(parse: Parser, protocol: Option<Protocol>, d: seq<seq<byte>>, p: seq<byte>)
    ensures AnyTerminal(parse, protocol, d + [p]) == (AnyTerminal(parse, protocol, d) || IsTerminal(parse, protocol, p))
    ensures AnyError(parse, protocol, d + [p]) == (AnyError(parse, protocol, d) || IsError(parse, protocol, p))
  {
    var all := d + [p];
    assert all[|d|] == p;
    assert forall i :: 0 <= i < |d| ==> all[i] == d[i];
  }

  lemma HighestSnoc(parse: Parser, d: seq<seq<byte>>, p: seq<byte>, highest: Option<u64>)
    requires IsHighest(parse, d, highest)
    ensures IsHighest(parse, d + [p], Higher(highest, NumberOf(parse, p)))
  {
    var all, higher := d + [p], Higher(highest, NumberOf(parse, p));
    assert all[|d|] == p;
    assert forall i :: 0 <= i < |d| ==> all[i] == d[i];
    if higher.Some? && higher == highest {
      var i :| 0 <= i < |d| && NumberOf(parse, d[i]) == highest;
      assert NumberOf(parse, all[i]) == higher;
    }
  }

  lemma EndIs(parse: Parser, w: Watch, p: seq<byte>, f: Facts)
    requires p != DONE && parse(p) == Some(f)
    ensures var t := LearnEnd(w, f);
            && t.sawTerminal == (w.sawTerminal || IsTerminal(parse, w.protocol, p))
            && t.sawError == (w.sawError || IsError(parse, w.protocol, p))
            && t.lastSequence == Higher(w.lastSequence, NumberOf(parse, p))
  {
  }

  /** What is learnt from a payload is what the payload says. */
  ghost predicate Learns(parse: Parser, w: Watch, p: seq<byte>, t: Watch) {
    var f := Known(parse, p);
    && t == w.(sawTerminal := w.sawTerminal || IsTerminal(parse, w.protocol, p),
               sawError := w.sawError || IsError(parse, w.protocol, p),
               lastSequence := Higher(w.lastSequence, NumberOf(parse, p)),
               chatId := if w.chatId.None? && f.Some? then f.value.id else w.chatId,
               modelId := if w.modelId.None? && f.Some? then f.value.model else w.modelId)
  }

  lemma LearnIs(parse: Parser, w: Watch, p: seq<byte>)
    ensures Learns(parse, w, p, Learn(parse, w, p))
  {
    if p != DONE && parse(p).Some? { EndIs(parse, w, p, parse(p).value); }
  }

  lemma LearnJudged(parse: Parser, w: Watch, d: seq<seq<byte>>, p: seq<byte>)
    requires Judged(parse, w, d)
    ensures Judged(parse, Learn(parse, w, p), d + [p])
  {
    LearnIs(parse, w, p);
    FirstsConcat(parse, d, [p]);
    FirstsOfOne(parse, p);
    AnySnoc(parse, w.protocol, d, p);
    HighestSnoc(parse, d, p, w.lastSequence);
  }

  lemma ItemsSnoc(lines: seq<seq<byte>>, line: seq<byte>)
    ensures ItemsOf(lines + [line]) == ItemsOf(lines) + [ItemOf(line)]
  {
  }

  lemma SameHas(parse: Parser, w: Watch, w': Watch, lines: seq<seq<byte>>)
    requires Has(parse, w, lines) && w' == w.(pendingCr := w'.pendingCr, lineBuffer := w'.lineBuffer)
    ensures Has(parse, w', lines)
  {
  }

  lemma TakeLineHas(parse: Parser, w: Watch, lines: seq<seq<byte>>, line: seq<byte>)
    requires Has(parse, w, lines)
    ensures Has(parse, TakeLine(parse, w, line), lines + [line])
  {
    var items := ItemsOf(lines);
    ItemsSnoc(lines, line);
    PayloadsSnoc(items, [], ItemOf(line));
    InEventSnoc(items, false, ItemOf(line));
    if line == [] && w.eventData != [] {
      LearnJudged(parse, w.(eventData := []), Payloads(items, []), w.eventData[..|w.eventData| - 1]);
    } else {
      assert Payloads(items, []) + [] == Payloads(items, []);
    }
  }

  lemma TakeFollows(parse: Parser, w: Watch, s: seq<byte>, b: byte)
    requires Follows(parse, w, s) && !Absorbed(s, b)
    ensures Follows(parse, Take(parse, w, b), s + [b])
  {
    LinesSnoc(s, b);
    if Ends(b) {
      var t := w.(pendingCr := b == CR, lineBuffer := []);
      SameHas(parse, w, t, Lines(s));
      TakeLineHas(parse, t, Lines(s), w.lineBuffer);
      LineKeeps(parse, t, w.lineBuffer);
    } else {
      SameHas(parse, w, Take(parse, w, b), Lines(s));
    }
  }

  lemma LineKeeps(parse: Parser, w: Watch, line: seq<byte>)
    ensures var t := TakeLine(parse, w, line);
            t.failed == w.failed && t.lineBuffer == w.lineBuffer && t.pendingCr == w.pendingCr && t.protocol == w.protocol
  {
  }

  lemma StepFollows(parse: Parser, w: Watch, s: seq<byte>, b: byte)
    requires Follows(parse, w, s)
    ensures Step(parse, w, b).failed || Follows(parse, Step(parse, w, b), s + [b])
  {
    if Absorbed(s, b) {
      LinesSnoc(s, b);
      SameHas(parse, w, Step(parse, w, b), Lines(s));
    } else {
      TakeFollows(parse, w, s, b);
    }
  }

  lemma NewFollows(parse: Parser, protocol: Option<Protocol>)
    ensures Follows(parse, New(protocol), [])
  {
    LinesOfOpen([]);
  }

  lemma FeedSnoc(parse: Parser, w: Watch, s: seq<byte>, b: byte)
    ensures Feed(parse, w, s + [b]) == if Feed(parse, w, s).Done() then Feed(parse, w, s) else Step(parse, Feed(parse, w, s), b)
  {
    FeedConcat(parse, w, s, [b]);
    assert [b][1..] == [];
  }

  /**
    On any stream, the observer either gave up on an oversized event, or knows
    everything about the stream up to where it stopped reading, which is all of
    it unless there was nothing left to learn.
   */
  lemma {:induction false} ObserverFollows(parse: Parser, protocol: Option<Protocol>, s: seq<byte>) returns (k: nat)
    ensures k <= |s|
    ensures var w := Feed(parse, New(protocol), s); w.failed || (Follows(parse, w, s[..k]) && (!w.Done() ==> k == |s|))
    decreases |s|
  {
    if s == [] {
      NewFollows(parse, protocol);
      k := 0;
    } else {
      var last := |s| - 1;
      var before := Feed(parse, New(protocol), s[..last]);
      k := ObserverFollows(parse, protocol, s[..last]);
      FeedSnoc(parse, New(protocol), s[..last], s[last]);
      assert s == s[..last] + [s[last]];
      if before.Done() {
        assert s[..last][..k] == s[..k];
      } else {
        assert s[..last][..k] == s[..last];
        StepFollows(parse, before, s[..last], s[last]);
        k := |s|;
        assert s[..k] == s;
      }
    }
  }

  // ---------- stopping early ----------

  lemma {:induction false} SeenGrows(s: seq<byte>, more: seq<byte>)
    ensures Seen(s) <= Seen(s + more)
  {
    LinesPrefix(s, more);
    var a, all := Lines(s), Lines(s + more);
    var b := all[|a|..];
    assert all == a + b;
    assert ItemsOf(a + b) == ItemsOf(a) + ItemsOf(b);
    PayloadsConcat(ItemsOf(a), ItemsOf(b), []);
  }

  lemma AnyGrows(parse: Parser, protocol: Option<Protocol>, a: seq<seq<byte>>, b: seq<seq<byte>>)
    requires a <= b
    ensures AnyTerminal(parse, protocol, a) ==> AnyTerminal(parse, protocol, b)
    ensures AnyError(parse, protocol, a) ==> AnyError(parse, protocol, b)
    ensures protocol.None? ==> !AnyTerminal(parse, protocol, b) && !AnyError(parse, protocol, b)
  {
    assert forall i :: 0 <= i < |a| ==> a[i] == b[i];
  }

  lemma FeedProtocol(parse: Parser, w: Watch, s: seq<byte>)
    ensures Feed(parse, w, s).protocol == w.protocol
    decreases |s|
  {
    if !w.Done() && s != [] {
      LineKeeps(parse, w.(pendingCr := s[0] == CR, lineBuffer := []), w.lineBuffer);
      FeedProtocol(parse, Step(parse, w, s[0]), s[1..]);
    }
  }

  /** An observer that reads on even when it has nothing left to learn; only the cap stops it. */
  function StepOn(parse: Parser, w: Watch, b: byte): Watch {
    if w.pendingCr && b == LF then w.(pendingCr := false) else Capped(Take(parse, w, b))
  }

  function FeedOn(parse: Parser, w: Watch, bytes: seq<byte>): Watch
    decreases |bytes|
  {
    if w.failed || bytes == [] then w else FeedOn(parse, StepOn(parse, w, bytes[0]), bytes[1..])
  }

  ghost predicate SameAnswers(w: Watch, u: Watch) {
    w.chatId == u.chatId && w.modelId == u.modelId && (w.sawTerminal || w.sawError) == (u.sawTerminal || u.sawError)
  }

  /** What is known stays known. */
  ghost predicate Latches(w: Watch, t: Watch) {
    && (w.chatId.Some? ==> t.chatId == w.chatId) && (w.modelId.Some? ==> t.modelId == w.modelId)
    && (w.sawTerminal ==> t.sawTerminal) && (w.sawError ==> t.sawError) && t.protocol == w.protocol
    && (w.protocol.None? ==> t.sawTerminal == w.sawTerminal && t.sawError == w.sawError)
  }

  lemma LearnLatches(parse: Parser, w: Watch, p: seq<byte>)
    ensures Latches(w, Learn(parse, w, p))
  {
    LearnIs(parse, w, p);
  }

  lemma TakeLatches(parse: Parser, w: Watch, b: byte)
    ensures Latches(w, Take(parse, w, b))
  {
    if Ends(b) && w.eventData != [] {
      LearnLatches(parse, w.(pendingCr := b == CR, lineBuffer := [], eventData := []), w.eventData[..|w.eventData| - 1]);
    }
  }

  lemma {:induction false} FinishedIsFinal(parse: Parser, u: Watch, bytes: seq<byte>)
    requires u.Done()
    ensures SameAnswers(u, FeedOn(parse, u, bytes))
    decreases |bytes|
  {
    if !u.failed && bytes != [] {
      TakeLatches(parse, u, bytes[0]);
      FinishedIsFinal(parse, StepOn(parse, u, bytes[0]), bytes[1..]);
    }
  }

  // A finished line leaves nothing buffered, so measuring the buffers there changes nothing.
  lemma FinishingIsSmall(parse: Parser, w: Watch, b: byte)
    requires !w.Done() && Small(w)
    ensures Take(parse, w, b).Done() ==> Small(Take(parse, w, b))
  {
  }

  /** Between bytes the two buffers together stay within the cap. */
  predicate Small(w: Watch) {
    |w.lineBuffer| + |w.eventData| <= CAP
  }

  lemma {:induction false} BuffersStaySmall(parse: Parser, w: Watch, bytes: seq<byte>)
    requires Small(w)
    ensures Small(Feed(parse, w, bytes))
    decreases |bytes|
  {
    if !w.Done() && bytes != [] {
      if !(w.pendingCr && bytes[0] == LF) { FinishingIsSmall(parse, w, bytes[0]); }
      BuffersStaySmall(parse, Step(parse, w, bytes[0]), bytes[1..]);
    }
  }

  /** Stopping early never changes an answer: on every stream the two observers agree. */
  lemma {:induction false} StoppingEarlyIsSound(parse: Parser, w: Watch, bytes: seq<byte>)
    requires Small(w)
    ensures SameAnswers(Feed(parse, w, bytes), FeedOn(parse, w, bytes))
    decreases |bytes|
  {
    if w.Done() {
      FinishedIsFinal(parse, w, bytes);
    } else if bytes != [] {
      if !(w.pendingCr && bytes[0] == LF) { FinishingIsSmall(parse, w, bytes[0]); }
      assert Step(parse, w, bytes[0]) == StepOn(parse, w, bytes[0]);
      StoppingEarlyIsSound(parse, Step(parse, w, bytes[0]), bytes[1..]);
    }
  }

  /** Once an observation has failed, no later byte changes anything the observer says. */
  lemma FailureIsFinal(parse: Parser, protocol: Option<Protocol>, s: seq<byte>, more: seq<byte>)
    requires Feed(parse, New(protocol), s).failed
    ensures Feed(parse, New(protocol), s + more) == Feed(parse, New(protocol), s)
  {
    FeedConcat(parse, New(protocol), s, more);
    FeedDone(parse, Feed(parse, New(protocol), s), more);
  }

  // ---------- when it gives up ----------

  /** The bytes of `s` that a reader must hold: the open line, and the data of the event in progress. */
  function Held(s: seq<byte>): nat {
    |Tail(s)| + |Pending(ItemsOf(Lines(s)), [])|
  }

  /** The stream has said all there is to learn from it. */
  ghost predicate Learnt(parse: Parser, protocol: Option<Protocol>, s: seq<byte>) {
    && FirstId(parse, Seen(s)).Some? && FirstModel(parse, Seen(s)).Some?
    && (protocol.None? || AnyTerminal(parse, protocol, Seen(s)) || AnyError(parse, protocol, Seen(s)))
  }

  /** More than 16 MiB had to be held at byte `k`, and there was still something to learn. */
  ghost predicate OverflowsAt(parse: Parser, protocol: Option<Protocol>, s: seq<byte>, k: nat) {
    k <= |s| && Held(s[..k]) > 16 * 1024 * 1024 && !Learnt(parse, protocol, s[..k])
  }

  ghost predicate Overflows(parse: Parser, protocol: Option<Protocol>, s: seq<byte>) {
    exists k: nat :: OverflowsAt(parse, protocol, s, k)
  }

  /** No event of the stream is too large to hold. */
  ghost predicate Fits(s: seq<byte>) {
    forall k: nat :: k <= |s| ==> Held(s[..k]) <= 16 * 1024 * 1024
  }

  lemma FollowingHolds(parse: Parser, protocol: Option<Protocol>, w: Watch, s: seq<byte>)
    requires Follows(parse, w, s) && w.protocol == protocol
    ensures |w.lineBuffer| + |w.eventData| == Held(s) && (w.Done() <==> Learnt(parse, protocol, s))
  {
  }

  lemma LearntGrows(parse: Parser, protocol: Option<Protocol>, s: seq<byte>, more: seq<byte>)
    requires Learnt(parse, protocol, s)
    ensures Learnt(parse, protocol, s + more)
  {
    SeenGrows(s, more);
    var early, all := Seen(s), Seen(s + more);
    AnyGrows(parse, protocol, early, all);
    assert all == early + all[|early|..];
    FirstsConcat(parse, early, all[|early|..]);
  }

  // The step that gives up is over the limit.
  lemma FailingStep(parse: Parser, protocol: Option<Protocol>, w: Watch, s: seq<byte>, b: byte)
    requires Follows(parse, w, s) && w.protocol == protocol && Step(parse, w, b).failed
    ensures Held(s + [b]) > 16 * 1024 * 1024 && !Learnt(parse, protocol, s + [b])
  {
    assert !Absorbed(s, b);
    TakeFollows(parse, w, s, b);
    LineKeeps(parse, w.(pendingCr := b == CR, lineBuffer := []), w.lineBuffer);
    FollowingHolds(parse, protocol, Take(parse, w, b), s + [b]);
  }

  lemma {:induction false} FailedOverflows(parse: Parser, protocol: Option<Protocol>, s: seq<byte>)
    requires Feed(parse, New(protocol), s).failed
    ensures Overflows(parse, protocol, s)
    decreases |s|
  {
    var last := |s| - 1;
    var before := Feed(parse, New(protocol), s[..last]);
    assert s == s[..last] + [s[last]];
    FeedSnoc(parse, New(protocol), s[..last], s[last]);
    if before.failed {
      FailedOverflows(parse, protocol, s[..last]);
      var k: nat :| OverflowsAt(parse, protocol, s[..last], k);
      assert s[..last][..k] == s[..k];
      assert OverflowsAt(parse, protocol, s, k);
    } else {
      var k := ObserverFollows(parse, protocol, s[..last]);
      assert s[..last][..k] == s[..last];
      FeedProtocol(parse, New(protocol), s[..last]);
      FailingStep(parse, protocol, before, s[..last], s[last]);
      assert s[..|s|] == s;
      assert OverflowsAt(parse, protocol, s, |s|);
    }
  }

  lemma OverflowFailsThere(parse: Parser, protocol: Option<Protocol>, s: seq<byte>)
    requires Held(s) > 16 * 1024 * 1024 && !Learnt(parse, protocol, s)
    ensures Feed(parse, New(protocol), s).failed
  {
    var w := Feed(parse, New(protocol), s);
    var k := ObserverFollows(parse, protocol, s);
    FeedProtocol(parse, New(protocol), s);
    BuffersStaySmall(parse, New(protocol), s);
    assert s == s[..k] + s[k..] && (k == |s| ==> s[..k] == s);
    if Learnt(parse, protocol, s[..k]) { LearntGrows(parse, protocol, s[..k], s[k..]); }
    if Follows(parse, w, s[..k]) { FollowingHolds(parse, protocol, w, s[..k]); }
  }

  /**
    The observer gives up exactly on the streams that, with something still to
    learn, make it hold more than 16 MiB.
   */
  lemma FailsExactly(parse: Parser, protocol: Option<Protocol>, s: seq<byte>)
    ensures Feed(parse, New(protocol), s).failed <==> Overflows(parse, protocol, s)
  {
    if Overflows(parse, protocol, s) {
      var k: nat :| OverflowsAt(parse, protocol, s, k);
      OverflowFailsThere(parse, protocol, s[..k]);
      assert s == s[..k] + s[k..];
      FailureIsFinal(parse, protocol, s[..k], s[k..]);
    }
    if Feed(parse, New(protocol), s).failed { FailedOverflows(parse, protocol, s); }
  }

  lemma FittingNeverOverflows(parse: Parser, protocol: Option<Protocol>, s: seq<byte>)
    requires Fits(s)
    ensures !Overflows(parse, protocol, s)
  {
  }

  /** Unless the stream overflows it, the observer's answers are those of the whole stream, wherever it stopped reading. */
  lemma AnswersAreTheStreams(parse: Parser, protocol: Option<Protocol>, s: seq<byte>)
    requires !Overflows(parse, protocol, s)
    ensures var w := Feed(parse, New(protocol), s);
            && w.chatId == FirstId(parse, Seen(s)) && w.modelId == FirstModel(parse, Seen(s))
            && (w.sawTerminal || w.sawError) == (AnyTerminal(parse, protocol, Seen(s)) || AnyError(parse, protocol, Seen(s)))
  {
    FailsExactly(parse, protocol, s);
    FeedProtocol(parse, New(protocol), s);
    var k := ObserverFollows(parse, protocol, s);
    assert s == s[..k] + s[k..] && (k == |s| ==> s[..k] == s);
    AnswersOfPrefix(parse, Feed(parse, New(protocol), s), s[..k], s[k..]);
  }

  // Where the observer stopped, the rest of the stream can change no answer.
  lemma AnswersOfPrefix(parse: Parser, w: Watch, s: seq<byte>, more: seq<byte>)
    requires Follows(parse, w, s) && (!w.Done() ==> more == [])
    ensures w.chatId == FirstId(parse, Seen(s + more)) && w.modelId == FirstModel(parse, Seen(s + more))
    ensures (w.sawTerminal || w.sawError)
            == (AnyTerminal(parse, w.protocol, Seen(s + more)) || AnyError(parse, w.protocol, Seen(s + more)))
  {
    if more == [] { assert s + more == s; }
    SeenGrows(s, more);
    var early, all := Seen(s), Seen(s + more);
    AnyGrows(parse, w.protocol, early, all);
    assert all == early + all[|early|..];
    FirstsConcat(parse, early, all[|early|..]);
  }
}
