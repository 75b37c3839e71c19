/** The incremental observer of server-sent completion events
    (internal/prewarm/completion.go): its state, its steps and the object. */
module Completions {
  import opened Base
  import Text

  const MAX_EVENT_BYTES: nat := 1_048_576
  const MAX_PROBE_BYTES: nat := 4_194_304

  const LF: byte := 10
  const CR: byte := 13
  const SPACE: byte := 32
  const BRACE: byte := 123
  const DATA: Bytes := [100, 97, 116, 97, 58]
  const DONE: Bytes := [91, 68, 79, 78, 69, 93]

  /** The fields that JSON decoding fills in; errors are kept as raw JSON. */
  datatype Message = Message(kind: string, objectType: string, status: string, model: string, error: string,
                         response: Option<Response>)
  datatype Response = Response(status: string, model: string, error: string)

  /** JSON decoding of one event, left open: None is a decoding error. */
  type Decoder = Bytes -> Option<Message>

  predicate NoError(raw: string) {
    raw == "" || Text.TrimSpace(raw) == "null"
  }

  /** The model an event reports as completed, or "". */
  function CompletedModel(e: Message): string {
    if e.kind == "response.completed" && e.response.Some? && NoError(e.error) && NoError(e.response.value.error)
       && (e.response.value.status == "completed" || e.response.value.status == "")
    then e.response.value.model
    else if e.objectType == "response" && e.status == "completed" && NoError(e.error) then e.model
    else ""
  }

  datatype Parser = Parser(expected: string, line: Bytes, event: Bytes, completed: bool, mismatch: bool,
                           actual: string, malformed: bool)
  {
    predicate Success() { completed && !mismatch && !malformed }

    predicate Mismatch() { completed && mismatch }

    /** Neither buffer ever outgrows the event limit, and a mismatch needs a completion. */
    predicate Bounded() {
      |line| <= MAX_EVENT_BYTES && |event| <= MAX_EVENT_BYTES && (mismatch ==> completed)
    }
  }

  function NewParser(model: string): Parser {
    Parser(model, [], [], false, false, "", false)
  }

  predicate IsSpaceByte(b: byte) {
    b == SPACE || 9 <= b <= 13
  }

  function TrimLeft(s: Bytes): (t: Bytes)
    ensures |t| <= |s|
  {
    if s != [] && IsSpaceByte(s[0]) then TrimLeft(s[1..]) else s
  }

  function TrimRight(s: Bytes): (t: Bytes)
    ensures |t| <= |s|
  {
    if s != [] && IsSpaceByte(s[|s| - 1]) then TrimRight(s[..|s| - 1]) else s
  }

  function TrimSpace(s: Bytes): Bytes {
    TrimRight(TrimLeft(s))
  }

  function TrimCR(line: Bytes): Bytes {
    if line != [] && line[|line| - 1] == CR then line[..|line| - 1] else line
  }

  /** The value of a data field: one leading space is not part of it. */
  function DataOf(line: Bytes): Bytes
    requires DATA <= line
  {
    var data := line[|DATA|..];
    if data != [] && data[0] == SPACE then data[1..] else data
  }

  function AfterJSON(p: Parser, decode: Decoder, raw: Bytes): Parser {
    if |raw| > MAX_EVENT_BYTES then p.(malformed := true)
    else
      var decoded := decode(raw);
      if decoded.None? then p.(malformed := true)
      else
        var model := CompletedModel(decoded.value);
        if Text.TrimSpace(model) == "" then p
        else p.(actual := model, completed := true, mismatch := p.mismatch || model != p.expected)
  }

  function AfterEvent(p: Parser, decode: Decoder): Parser {
    var raw := TrimSpace(p.event);
    if raw == [] || raw == DONE then p.(event := []) else AfterJSON(p.(event := []), decode, raw)
  }

  function AfterLine(p: Parser, decode: Decoder): Parser {
    var line := TrimCR(p.line);
    if line == [] then AfterEvent(p, decode).(line := [])
    else if DATA <= line then
      var data := DataOf(line);
      if |p.event| + |data| + 1 > MAX_EVENT_BYTES then p.(malformed := true, event := [], line := [])
      else p.(event := p.event + data + [LF], line := [])
    else p.(line := [])
  }

  function AfterFinish(p: Parser, decode: Decoder): Parser {
    AfterEvent(if p.line != [] then AfterLine(p, decode) else p, decode)
  }

  /** The effect of one byte of a stream. */
  function AfterByte(p: Parser, decode: Decoder, b: byte): Parser {
    if p.malformed then p
    else if b == LF then AfterLine(p, decode)
    else if |p.line| + 1 > MAX_EVENT_BYTES then p.(malformed := true, line := [], event := [])
    else p.(line := p.line + [b])
  }

  function AfterFeed(p: Parser, decode: Decoder, bytes: Bytes): Parser
    decreases |bytes|
  {
    if bytes == [] then p else AfterFeed(AfterByte(p, decode, bytes[0]), decode, bytes[1..])
  }

  function EvaluateProbeBody(body: Bytes, model: string, decode: Decoder): Parser {
    var trimmed := TrimSpace(body);
    if trimmed != [] && trimmed[0] == BRACE then AfterJSON(NewParser(model), decode, body)
    else AfterFinish(AfterFeed(NewParser(model), decode, body), decode)
  }

  lemma {:induction false} FeedMalformed(p: Parser, decode: Decoder, bytes: Bytes)
    requires p.malformed
    ensures AfterFeed(p, decode, bytes) == p
    decreases |bytes|
  {
    if bytes != [] {
      FeedMalformed(p, decode, bytes[1..]);
    }
  }

  /** A stretch without a line feed either fits in the line buffer whole, or
      trips the limit and leaves both buffers empty. */
  lemma {:induction false} FeedStretch(p: Parser, decode: Decoder, bytes: Bytes)
    requires !p.malformed && |p.line| <= MAX_EVENT_BYTES && LF !in bytes
    ensures AfterFeed(p, decode, bytes)
         == if |p.line| + |bytes| > MAX_EVENT_BYTES then p.(malformed := true, line := [], event := [])
            else p.(line := p.line + bytes)
    decreases |bytes|
  {
    if bytes == [] {
      assert p.line + bytes == p.line;
    } else {
      var next := AfterByte(p, decode, bytes[0]);
      if next.malformed {
        FeedMalformed(next, decode, bytes[1..]);
      } else {
        FeedStretch(next, decode, bytes[1..]);
        assert p.line + bytes == next.line + bytes[1..];
      }
    }
  }

  /** Feeding is independent of how the stream was cut into chunks, overflow and
      malformed events included. */
  lemma {:induction false} FeedConcat(p: Parser, decode: Decoder, a: Bytes, b: Bytes)
    ensures AfterFeed(AfterFeed(p, decode, a), decode, b) == AfterFeed(p, decode, a + b)
    decreases |a|
  {
    if a == [] {
      assert a + b == b;
    } else {
      FeedConcat(AfterByte(p, decode, a[0]), decode, a[1..], b);
      assert (a + b)[1..] == a[1..] + b;
    }
  }

  function AfterChunks(p: Parser, decode: Decoder, chunks: seq<Bytes>): Parser
    decreases |chunks|
  {
    if chunks == [] then p else AfterChunks(AfterFeed(p, decode, chunks[0]), decode, chunks[1..])
  }

  function Flatten(chunks: seq<Bytes>): Bytes {
    if chunks == [] then [] else chunks[0] + Flatten(chunks[1..])
  }

  /** Any two ways of cutting the same stream leave the same parser. */
  lemma {:induction false} ChunkIndependence(p: Parser, decode: Decoder, chunks: seq<Bytes>)
    ensures AfterChunks(p, decode, chunks) == AfterFeed(p, decode, Flatten(chunks))
    decreases |chunks|
  {
    if chunks != [] {
      ChunkIndependence(AfterFeed(p, decode, chunks[0]), decode, chunks[1..]);
      FeedConcat(p, decode, chunks[0], Flatten(chunks[1..]));
    }
  }

  lemma LineBounded(p: Parser, decode: Decoder)
    requires p.Bounded()
    ensures AfterLine(p, decode).Bounded() && AfterLine(p, decode).line == []
  {
  }

  /** The buffers stay within the limit whatever is fed. */
  lemma {:induction false} FeedBounded(p: Parser, decode: Decoder, bytes: Bytes)
    requires p.Bounded()
    ensures AfterFeed(p, decode, bytes).Bounded()
    decreases |bytes|
  {
    if bytes != [] {
      LineBounded(p, decode);
      FeedBounded(AfterByte(p, decode, bytes[0]), decode, bytes[1..]);
    }
  }

  lemma EventCleared(p: Parser, decode: Decoder)
    ensures AfterEvent(p, decode).event == [] && AfterEvent(p, decode).line == p.line
  {
  }

  /** Finishing leaves nothing buffered, so a second Finish changes nothing. */
  lemma FinishIdempotent(p: Parser, decode: Decoder)
    ensures AfterFinish(p, decode).line == [] && AfterFinish(p, decode).event == []
    ensures AfterFinish(AfterFinish(p, decode), decode) == AfterFinish(p, decode)
  {
    EventCleared(p, decode);
    EventCleared(AfterLine(p, decode), decode);
    assert TrimSpace([]) == [];
  }

  class Completion {
    const expected: string
    const decode: Decoder
    var line: Bytes
    var event: Bytes
    var completed: bool
    var mismatch: bool
    var actual: string
    var malformed: bool

    ghost function State(): Parser
      reads this
    {
      Parser(expected, line, event, completed, mismatch, actual, malformed)
    }

    constructor (model: string, decode: Decoder)
      ensures State() == NewParser(model) && this.decode == decode
    {
      expected, this.decode := model, decode;
      line, event, actual := [], [], "";
      completed, mismatch, malformed := false, false, false;
    }

    method Feed(bytes: Bytes)
      requires State().Bounded()
      modifies this
      ensures State() == AfterFeed(old(State()), decode, bytes) && State().Bounded()
    {
      FeedBounded(State(), decode, bytes);
      if malformed {
        FeedMalformed(State(), decode, bytes);
        return;
      }
      var p := bytes;
      while |p| > 0
        invariant State().Bounded() && !malformed
        invariant AfterFeed(State(), decode, p) == AfterFeed(old(State()), decode, bytes)
        decreases |p|
      {
        var i := IndexLF(p);
        ghost var before := State();
        assert p == p[..i] + p[i..];
        FeedConcat(before, decode, p[..i], p[i..]);
        FeedStretch(before, decode, p[..i]);
        if |line| + i > MAX_EVENT_BYTES {
          malformed, line, event := true, [], [];
          FeedMalformed(State(), decode, p[i..]);
          return;
        }
        line := line + p[..i];
        if i == |p| {
          return;
        }
        LineBounded(State(), decode);
        ConsumeLine();
        p := p[i + 1..];
        if malformed {
          FeedMalformed(State(), decode, p);
          return;
        }
      }
    }

    static method IndexLF(p: Bytes) returns (i: nat)
      ensures i <= |p| && LF !in p[..i]
      ensures i < |p| ==> p[i] == LF
    {
      i := 0;
      while i < |p| && p[i] != LF
        invariant i <= |p| && LF !in p[..i]
      {
        i := i + 1;
      }
    }

    method ConsumeLine()
      modifies this
      ensures State() == AfterLine(old(State()), decode)
    {
      var text := TrimCR(line);
      if |text| == 0 {
        ConsumeEvent();
      } else if DATA <= text {
        var data := DataOf(text);
        if |event| + |data| + 1 > MAX_EVENT_BYTES {
          malformed, event := true, [];
        } else {
          event := event + data;
          event := event + [LF];
        }
      }
      line := [];
    }

    method ConsumeEvent()
      modifies this
      ensures State() == AfterEvent(old(State()), decode)
    {
      var raw := TrimSpace(event);
      event := [];
      if raw == [] || raw == DONE {
        return;
      }
      JSON(raw);
    }

    method Finish()
      modifies this
      ensures State() == AfterFinish(old(State()), decode)
    {
      if |line| > 0 {
        ConsumeLine();
      }
      ConsumeEvent();
    }

    method JSON(raw: Bytes)
      modifies this
      ensures State() == AfterJSON(old(State()), decode, raw)
    {
      if |raw| > MAX_EVENT_BYTES {
        malformed := true;
        return;
      }
      var decoded := decode(raw);
      if decoded.None? {
        malformed := true;
        return;
      }
      var model := CompletedModel(decoded.value);
      if Text.TrimSpace(model) != "" {
        actual, completed := model, true;
        if model != expected {
          mismatch := true;
        }
      }
    }

    method Success() returns (ok: bool)
      ensures ok == State().Success()
    {
      ok := completed && !mismatch && !malformed;
    }
  }

  method EvaluateBody(body: Bytes, model: string, decode: Decoder) returns (ok: bool, actual: string)
    ensures ok == EvaluateProbeBody(body, model, decode).Success()
    ensures actual == EvaluateProbeBody(body, model, decode).actual
  {
    var o := new Completion(model, decode);
    var trimmed := TrimSpace(body);
    if trimmed != [] && trimmed[0] == BRACE {
      o.JSON(body);
    } else {
      o.Feed(body);
      o.Finish();
    }
    ok := o.Success();
    actual := o.actual;
  }
}
