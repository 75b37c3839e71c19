/** A whole-stream reading of the same event stream, with no parser state, and the
    proof that the incremental observer agrees with it under every chunking.
    The format is a subset of sections 9.2.5 and 9.2.6 of the WHATWG HTML Living
    Standard (Server-sent events): only `data` fields, only line feeds with an
    optional carriage return end a line, and the last event needs no blank line. */
module CompletionStream {
  import opened Base
  import opened Completions
  import Text

  /** The lines of a stream; what follows the last line feed is a line if it is
      not empty. */
  function Lines(stream: Bytes): (lines: seq<Bytes>)
    decreases |stream|
  {
    if stream == [] then []
    else
      var n := FirstLF(stream);
      if n == |stream| then [stream] else [stream[..n]] + Lines(stream[n + 1..])
  }

  function FirstLF(stream: Bytes): (n: nat)
    ensures n <= |stream| && LF !in stream[..n]
    ensures n < |stream| ==> stream[n] == LF
  {
    if stream == [] || stream[0] == LF then 0
    else
      var m := FirstLF(stream[1..]);
      assert stream[..m + 1] == [stream[0]] + stream[1..][..m];
      m + 1
  }

  /** The payloads of the events: `gathered` holds the data lines since the last
      blank line, and the end of the stream closes the last event. */
  function Payloads(lines: seq<Bytes>, gathered: Bytes): (payloads: seq<Bytes>)
    ensures payloads != []
    decreases |lines|
  {
    if lines == [] then [gathered]
    else
      var line := TrimCR(lines[0]);
      if line == [] then [gathered] + Payloads(lines[1..], [])
      else if DATA <= line then Payloads(lines[1..], gathered + DataOf(line) + [LF])
      else Payloads(lines[1..], gathered)
  }

  datatype Verdict = Nothing | Malformed | Completed(model: string)

  /** What one event says on its own. */
  function Judge(payload: Bytes, decode: Decoder): Verdict {
    var raw := TrimSpace(payload);
    if |payload| > MAX_EVENT_BYTES then Malformed
    else if raw == [] || raw == DONE then Nothing
    else
      var decoded := decode(raw);
      if decoded.None? then Malformed
      else
        var model := CompletedModel(decoded.value);
        if Text.TrimSpace(model) == "" then Nothing else Completed(model)
  }

  /** No line and no event is oversize or malformed, some event completes, and
      every completion names the expected model. */
  ghost predicate Accepts(stream: Bytes, model: string, decode: Decoder) {
    && (forall line <- Lines(stream) :: |line| <= MAX_EVENT_BYTES)
    && (forall payload <- Payloads(Lines(stream), []) :: Judge(payload, decode) in {Nothing, Completed(model)})
    && (exists payload <- Payloads(Lines(stream), []) :: Judge(payload, decode) == Completed(model))
  }

  /** A whole line at once. */
  function AfterWholeLine(p: Parser, decode: Decoder, line: Bytes): Parser {
    if p.malformed then p
    else if |line| > MAX_EVENT_BYTES then p.(malformed := true, line := [], event := [])
    else AfterLine(p.(line := line), decode)
  }

  function AfterLines(p: Parser, decode: Decoder, lines: seq<Bytes>): Parser
    decreases |lines|
  {
    if lines == [] then AfterEvent(p, decode) else AfterLines(AfterWholeLine(p, decode, lines[0]), decode, lines[1..])
  }

  /** A malformed observer takes in no more lines. */
  lemma {:induction false} LinesMalformed(p: Parser, decode: Decoder, lines: seq<Bytes>)
    requires p.malformed
    ensures AfterLines(p, decode, lines) == AfterEvent(p, decode)
    decreases |lines|
  {
    if lines != [] {
      LinesMalformed(p, decode, lines[1..]);
    }
  }

  lemma MalformedFails(p: Parser, decode: Decoder, lines: seq<Bytes>)
    requires p.malformed
    ensures !AfterLines(p, decode, lines).Success()
  {
    LinesMalformed(p, decode, lines);
  }

  lemma FeedOne(p: Parser, decode: Decoder, b: byte)
    ensures AfterFeed(p, decode, [b]) == AfterByte(p, decode, b)
  {
    assert [b][1..] == [];
    assert AfterFeed(p, decode, [b]) == AfterFeed(AfterByte(p, decode, b), decode, []);
  }

  /** A line and its line feed, byte by byte or at once. */
  lemma FeedLine(p: Parser, decode: Decoder, line: Bytes)
    requires p.line == [] && !p.malformed && LF !in line
    ensures AfterFeed(p, decode, line + [LF]) == AfterWholeLine(p, decode, line)
    ensures AfterWholeLine(p, decode, line).line == []
  {
    FeedConcat(p, decode, line, [LF]);
    FeedStretch(p, decode, line);
    assert p.line + line == line;
    FeedOne(AfterFeed(p, decode, line), decode, LF);
  }

  /** A last line without a line feed. */
  lemma FeedLastLine(p: Parser, decode: Decoder, line: Bytes)
    requires p.line == [] && !p.malformed && LF !in line && line != []
    ensures AfterFinish(AfterFeed(p, decode, line), decode) == AfterLines(p, decode, [line])
  {
    FeedStretch(p, decode, line);
    assert p.line + line == line;
    var whole := AfterWholeLine(p, decode, line);
    LinesCons(p, decode, line, []);
    assert AfterLines(whole, decode, []) == AfterEvent(whole, decode);
  }

  lemma LinesCons(p: Parser, decode: Decoder, line: Bytes, rest: seq<Bytes>)
    ensures AfterLines(p, decode, [line] + rest) == AfterLines(AfterWholeLine(p, decode, line), decode, rest)
  {
    assert ([line] + rest)[1..] == rest;
  }

  lemma RestMalformed(p: Parser, decode: Decoder, rest: Bytes)
    requires p.malformed && p.line == []
    ensures AfterFinish(AfterFeed(p, decode, rest), decode) == AfterLines(p, decode, Lines(rest))
  {
    FeedMalformed(p, decode, rest);
    LinesMalformed(p, decode, Lines(rest));
  }

  /** Feeding bytes and finishing is the same as consuming line by line. */
  lemma {:induction false} FeedIsLines(p: Parser, decode: Decoder, stream: Bytes)
    requires p.line == [] && !p.malformed
    ensures AfterFinish(AfterFeed(p, decode, stream), decode) == AfterLines(p, decode, Lines(stream))
    decreases |stream|
  {
    if stream == [] {
      return;
    }
    var n := FirstLF(stream);
    var line := stream[..n];
    if n == |stream| {
      assert line == stream;
      FeedLastLine(p, decode, line);
    } else {
      var rest := stream[n + 1..];
      assert stream == (line + [LF]) + rest;
      FeedLine(p, decode, line);
      FeedConcat(p, decode, line + [LF], rest);
      LinesCons(p, decode, line, Lines(rest));
      var whole := AfterWholeLine(p, decode, line);
      if whole.malformed {
        RestMalformed(whole, decode, rest);
      } else {
        FeedIsLines(whole, decode, rest);
      }
    }
  }

  /** What the rest of a stream must still satisfy, given what was seen so far. */
  ghost predicate RestAccepted(p: Parser, decode: Decoder, lines: seq<Bytes>) {
    var payloads := Payloads(lines, p.event);
    && !p.mismatch
    && (forall line <- lines :: |line| <= MAX_EVENT_BYTES)
    && (forall payload <- payloads :: Judge(payload, decode) in {Nothing, Completed(p.expected)})
    && (p.completed || exists payload <- payloads :: Judge(payload, decode) == Completed(p.expected))
  }

  lemma EventJudged(p: Parser, decode: Decoder)
    requires !p.malformed && |p.event| <= MAX_EVENT_BYTES
    ensures AfterEvent(p, decode)
         == match Judge(p.event, decode)
            case Nothing => p.(event := [])
            case Malformed => p.(event := [], malformed := true)
            case Completed(model) =>
              p.(event := [], actual := model, completed := true, mismatch := p.mismatch || model != p.expected)
  {
  }

  /** The data gathered for an event only grows until the event is closed. */
  lemma {:induction false} PayloadGrows(lines: seq<Bytes>, gathered: Bytes)
    ensures |gathered| <= |Payloads(lines, gathered)[0]|
    decreases |lines|
  {
    if lines != [] {
      var line := TrimCR(lines[0]);
      if line != [] {
        PayloadGrows(lines[1..], if DATA <= line then gathered + DataOf(line) + [LF] else gathered);
      }
    }
  }

  /** A blank line closes the event. */
  lemma BlankJudged(p: Parser, decode: Decoder, line: Bytes, rest: seq<Bytes>)
    requires !p.malformed && |line| <= MAX_EVENT_BYTES && TrimCR(line) == []
    requires p.line == [] && |p.event| <= MAX_EVENT_BYTES
    ensures var next := AfterWholeLine(p, decode, line);
            && Payloads([line] + rest, p.event) == [p.event] + Payloads(rest, [])
            && next == match Judge(p.event, decode)
                       case Nothing => p.(event := [])
                       case Malformed => p.(event := [], malformed := true)
                       case Completed(model) =>
                         p.(event := [], actual := model, completed := true,
                            mismatch := p.mismatch || model != p.expected)
  {
    assert ([line] + rest)[1..] == rest;
    EventJudged(p.(line := line), decode);
  }

  lemma BlankAccepted(p: Parser, decode: Decoder, line: Bytes, rest: seq<Bytes>)
    requires !p.malformed && |line| <= MAX_EVENT_BYTES && TrimCR(line) == []
    requires p.line == [] && |p.event| <= MAX_EVENT_BYTES && (p.mismatch ==> p.completed)
    ensures var next := AfterWholeLine(p, decode, line);
            && (next.malformed ==> !RestAccepted(p, decode, [line] + rest))
            && (!next.malformed ==> (RestAccepted(p, decode, [line] + rest) <==> RestAccepted(next, decode, rest)))
  {
    BlankJudged(p, decode, line, rest);
    var payloads := Payloads([line] + rest, p.event);
    assert payloads[0] == p.event && payloads[0] in payloads;
    assert forall x :: x in payloads <==> x == p.event || x in Payloads(rest, []);
  }

  lemma {:induction false} LinesJudged(p: Parser, decode: Decoder, lines: seq<Bytes>)
    requires p.line == [] && !p.malformed && |p.event| <= MAX_EVENT_BYTES && (p.mismatch ==> p.completed)
    ensures AfterLines(p, decode, lines).Success() <==> RestAccepted(p, decode, lines)
    decreases |lines|, 1
  {
    if lines == [] {
      EventJudged(p, decode);
      assert Payloads(lines, p.event) == [p.event] && p.event in [p.event];
    } else {
      LineJudged(p, decode, lines[0], lines[1..]);
      assert lines == [lines[0]] + lines[1..];
    }
  }

  lemma {:induction false} LineJudged(p: Parser, decode: Decoder, first: Bytes, rest: seq<Bytes>)
    requires p.line == [] && !p.malformed && |p.event| <= MAX_EVENT_BYTES && (p.mismatch ==> p.completed)
    ensures AfterLines(p, decode, [first] + rest).Success() <==> RestAccepted(p, decode, [first] + rest)
    decreases |rest| + 1, 0
  {
    var next := AfterWholeLine(p, decode, first);
    var lines := [first] + rest;
    assert first in lines;
    LinesCons(p, decode, first, rest);
    if next.malformed {
      MalformedFails(next, decode, rest);
    }
    var line := TrimCR(first);
    if |first| > MAX_EVENT_BYTES {
    } else if line == [] {
      BlankAccepted(p, decode, first, rest);
      if !next.malformed {
        LinesJudged(next, decode, rest);
      }
    } else if DATA <= line && |p.event| + |DataOf(line)| + 1 > MAX_EVENT_BYTES {
      OverflowRejected(p, decode, first, rest);
    } else {
      LinesJudged(next, decode, rest);
      assert lines[1..] == rest && Payloads(lines, p.event) == Payloads(rest, next.event);
    }
  }

  lemma OverflowRejected(p: Parser, decode: Decoder, first: Bytes, rest: seq<Bytes>)
    requires var line := TrimCR(first);
             line != [] && DATA <= line && |p.event| + |DataOf(line)| + 1 > MAX_EVENT_BYTES
    ensures !RestAccepted(p, decode, [first] + rest)
  {
    var lines := [first] + rest;
    var payloads := Payloads(lines, p.event);
    assert lines[1..] == rest;
    PayloadGrows(rest, p.event + DataOf(TrimCR(first)) + [LF]);
    assert Judge(payloads[0], decode) == Malformed && payloads[0] in payloads;
  }

  /** After Finish, the observer reports success exactly when the whole stream is
      accepted, however the stream was cut into chunks. */
  lemma SuccessIffAccepted(chunks: seq<Bytes>, model: string, decode: Decoder)
    ensures AfterFinish(AfterChunks(NewParser(model), decode, chunks), decode).Success()
       <==> Accepts(Flatten(chunks), model, decode)
  {
    var stream := Flatten(chunks);
    ChunkIndependence(NewParser(model), decode, chunks);
    FeedIsLines(NewParser(model), decode, stream);
    LinesJudged(NewParser(model), decode, Lines(stream));
  }

  // ---- What a mismatch means ---------------------------------------------

  /** The payloads of the events that are closed before any oversize line. */
  function Heard(lines: seq<Bytes>, gathered: Bytes): (payloads: seq<Bytes>)
    decreases |lines|
  {
    if lines == [] then [gathered]
    else if |lines[0]| > MAX_EVENT_BYTES then []
    else
      var line := TrimCR(lines[0]);
      if line == [] then [gathered] + Heard(lines[1..], [])
      else if DATA <= line then Heard(lines[1..], gathered + DataOf(line) + [LF])
      else Heard(lines[1..], gathered)
  }

  predicate NamesAnother(verdict: Verdict, model: string) {
    verdict.Completed? && verdict.model != model
  }

  /** Event i completes with another model, and none before it is malformed. */
  ghost predicate DisagreesAt(payloads: seq<Bytes>, i: nat, model: string, decode: Decoder) {
    && i < |payloads| && NamesAnother(Judge(payloads[i], decode), model)
    && forall j | 0 <= j < i :: Judge(payloads[j], decode) != Malformed
  }

  ghost predicate Disagrees(payloads: seq<Bytes>, model: string, decode: Decoder) {
    exists i | 0 <= i < |payloads| :: DisagreesAt(payloads, i, model, decode)
  }

  /** The stream, as far as it makes sense, completes with another model. */
  ghost predicate Contradicts(stream: Bytes, model: string, decode: Decoder) {
    Disagrees(Heard(Lines(stream), []), model, decode)
  }

  /** One more event in front moves a later disagreement by one. */
  lemma DisagreesShift(first: Bytes, rest: seq<Bytes>, i: nat, model: string, decode: Decoder)
    requires Judge(first, decode) != Malformed
    ensures DisagreesAt([first] + rest, i + 1, model, decode) <==> DisagreesAt(rest, i, model, decode)
  {
    var all := [first] + rest;
    assert forall j | 0 <= j < |rest| :: all[j + 1] == rest[j];
    if DisagreesAt(all, i + 1, model, decode) {
      forall j | 0 <= j < i ensures Judge(rest[j], decode) != Malformed {
        assert all[j + 1] == rest[j];
      }
    }
    if DisagreesAt(rest, i, model, decode) {
      forall j | 0 <= j < i + 1 ensures Judge(all[j], decode) != Malformed {
        assert j > 0 ==> all[j] == rest[j - 1];
      }
    }
  }

  lemma DisagreesFirst(first: Bytes, rest: seq<Bytes>, model: string, decode: Decoder)
    ensures Disagrees([first] + rest, model, decode)
       <==> NamesAnother(Judge(first, decode), model)
            || (Judge(first, decode) != Malformed && Disagrees(rest, model, decode))
  {
    var all := [first] + rest;
    assert DisagreesAt(all, 0, model, decode) <==> NamesAnother(Judge(first, decode), model);
    if Judge(first, decode) != Malformed {
      forall i: nat
        ensures DisagreesAt(all, i + 1, model, decode) <==> DisagreesAt(rest, i, model, decode)
      {
        DisagreesShift(first, rest, i, model, decode);
      }
      if Disagrees(all, model, decode) {
        var i :| 0 <= i < |all| && DisagreesAt(all, i, model, decode);
        assert i > 0 ==> DisagreesAt(rest, i - 1, model, decode);
      }
      if Disagrees(rest, model, decode) {
        var i :| 0 <= i < |rest| && DisagreesAt(rest, i, model, decode);
        assert DisagreesAt(all, i + 1, model, decode);
      }
    } else {
      forall i: nat
        ensures !DisagreesAt(all, i, model, decode)
      {
        assert all[0] == first;
      }
    }
  }

  lemma {:induction false} HeardGrows(lines: seq<Bytes>, gathered: Bytes)
    ensures Heard(lines, gathered) != [] ==> |gathered| <= |Heard(lines, gathered)[0]|
    decreases |lines|
  {
    if lines != [] && |lines[0]| <= MAX_EVENT_BYTES {
      var line := TrimCR(lines[0]);
      if line != [] {
        HeardGrows(lines[1..], if DATA <= line then gathered + DataOf(line) + [LF] else gathered);
      }
    }
  }

  /** An event that has outgrown the limit is malformed, when it is closed at all. */
  lemma OversizeIsSilent(lines: seq<Bytes>, gathered: Bytes, model: string, decode: Decoder)
    requires |gathered| > MAX_EVENT_BYTES
    ensures !Disagrees(Heard(lines, gathered), model, decode)
  {
    HeardGrows(lines, gathered);
    var heard := Heard(lines, gathered);
    if heard != [] {
      assert heard == [heard[0]] + heard[1..];
      DisagreesFirst(heard[0], heard[1..], model, decode);
    }
  }

  lemma MalformedKeepsVerdict(p: Parser, decode: Decoder, lines: seq<Bytes>)
    requires p.malformed && p.event == []
    ensures AfterLines(p, decode, lines).Mismatch() == p.Mismatch()
  {
    LinesMalformed(p, decode, lines);
    assert TrimSpace([]) == [];
  }

  lemma {:induction false} LinesHeard(p: Parser, decode: Decoder, lines: seq<Bytes>)
    requires p.line == [] && !p.malformed && |p.event| <= MAX_EVENT_BYTES && (p.mismatch ==> p.completed)
    ensures AfterLines(p, decode, lines).Mismatch()
       <==> p.mismatch || Disagrees(Heard(lines, p.event), p.expected, decode)
    decreases |lines|, 1
  {
    if lines == [] {
      EventJudged(p, decode);
      DisagreesFirst(p.event, [], p.expected, decode);
      assert [p.event] + [] == [p.event];
    } else {
      assert lines == [lines[0]] + lines[1..];
      LineHeard(p, decode, lines[0], lines[1..]);
    }
  }

  lemma {:induction false} LineHeard(p: Parser, decode: Decoder, first: Bytes, rest: seq<Bytes>)
    requires p.line == [] && !p.malformed && |p.event| <= MAX_EVENT_BYTES && (p.mismatch ==> p.completed)
    ensures AfterLines(p, decode, [first] + rest).Mismatch()
       <==> p.mismatch || Disagrees(Heard([first] + rest, p.event), p.expected, decode)
    decreases |rest| + 1, 0
  {
    var next, line := AfterWholeLine(p, decode, first), TrimCR(first);
    LinesCons(p, decode, first, rest);
    assert ([first] + rest)[1..] == rest;
    if |first| > MAX_EVENT_BYTES {
      MalformedKeepsVerdict(next, decode, rest);
    } else if line == [] {
      BlankJudged(p, decode, first, rest);
      DisagreesFirst(p.event, Heard(rest, []), p.expected, decode);
      if next.malformed {
        MalformedKeepsVerdict(next, decode, rest);
      } else {
        LinesHeard(next, decode, rest);
      }
    } else if DATA <= line && |p.event| + |DataOf(line)| + 1 > MAX_EVENT_BYTES {
      MalformedKeepsVerdict(next, decode, rest);
      OversizeIsSilent(rest, p.event + DataOf(line) + [LF], p.expected, decode);
    } else {
      LinesHeard(next, decode, rest);
    }
  }

  /** After Finish, the observer reports a mismatch exactly when the stream, up to
      the first oversize or malformed part, has an event that completes with
      another model, however the stream was cut into chunks. */
  lemma MismatchIffContradicts(chunks: seq<Bytes>, model: string, decode: Decoder)
    ensures AfterFinish(AfterChunks(NewParser(model), decode, chunks), decode).Mismatch()
       <==> Contradicts(Flatten(chunks), model, decode)
  {
    var stream := Flatten(chunks);
    ChunkIndependence(NewParser(model), decode, chunks);
    FeedIsLines(NewParser(model), decode, stream);
    LinesHeard(NewParser(model), decode, Lines(stream));
  }
}
