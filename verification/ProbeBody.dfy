/** What a probe body has to be to succeed (internal/prewarm/completion.go,
    EvaluateProbeBody): one JSON object, or an event stream. */
module ProbeBody {
  import opened Base
  import opened Completions
  import opened CompletionStream
  import opened Plans
  import Text

  predicate WhiteByte(b: byte) {
    b == 32 || 9 <= b <= 13
  }

  /** The first byte that is not white space opens a JSON object. */
  ghost predicate OpensObject(body: Bytes) {
    exists i | 0 <= i < |body| :: body[i] == 123 && forall j | 0 <= j < i :: WhiteByte(body[j])
  }

  /** A raw error field that is absent or null. */
  ghost predicate NoErrorIn(raw: string) {
    raw == "" || exists i, j | 0 <= i <= j <= |raw| :: Blank(raw[..i]) && Blank(raw[j..]) && raw[i..j] == "null"
  }

  /** The event of a stream that carries a completed response. */
  ghost predicate CarriesResponse(m: Message) {
    && m.kind == "response.completed" && m.response.Some?
    && NoErrorIn(m.error) && NoErrorIn(m.response.value.error)
    && (m.response.value.status == "completed" || m.response.value.status == "")
  }

  /** The message reports that this model completed: in the response that it
      carries, or else as a completed response itself. */
  ghost predicate Reports(m: Message, model: string) {
    && !Blank(model)
    && if CarriesResponse(m) then m.response.value.model == model
       else m.objectType == "response" && m.status == "completed" && NoErrorIn(m.error) && m.model == model
  }

  lemma NoErrorMeans(raw: string)
    ensures NoError(raw) <==> NoErrorIn(raw)
  {
    var a, b := TrimSplits(raw);
    if NoErrorIn(raw) && raw != "" {
      var i, j :| 0 <= i <= j <= |raw| && Blank(raw[..i]) && Blank(raw[j..]) && raw[i..j] == "null";
      TrimOf(raw[..i], raw[i..j], raw[j..]);
      assert raw == raw[..i] + raw[i..j] + raw[j..];
    }
  }

  /** The model that an event is taken to complete with. */
  lemma CompletedMeans(m: Message, model: string)
    ensures CompletedModel(m) == model && Text.TrimSpace(model) != "" <==> Reports(m, model)
  {
    TrimmedBlank(model);
    NoErrorMeans(m.error);
    if m.response.Some? {
      NoErrorMeans(m.response.value.error);
    }
  }

  lemma {:induction false} LeftOpens(s: Bytes)
    ensures TrimLeft(s) != [] && TrimLeft(s)[0] == BRACE <==> OpensObject(s)
  {
    if s != [] && IsSpaceByte(s[0]) {
      LeftOpens(s[1..]);
      if OpensObject(s[1..]) {
        var i :| 0 <= i < |s[1..]| && s[1..][i] == 123 && forall j | 0 <= j < i :: WhiteByte(s[1..][j]);
        assert forall j | 0 < j < i + 1 :: s[j] == s[1..][j - 1];
        assert s[i + 1] == 123;
      }
      if OpensObject(s) {
        var i :| 0 <= i < |s| && s[i] == 123 && forall j | 0 <= j < i :: WhiteByte(s[j]);
        assert s[1..][i - 1] == 123;
      }
    }
  }

  lemma {:induction false} RightKeepsHead(s: Bytes)
    requires s != [] && !IsSpaceByte(s[0])
    ensures TrimRight(s) != [] && TrimRight(s)[0] == s[0]
  {
    if IsSpaceByte(s[|s| - 1]) {
      RightKeepsHead(s[..|s| - 1]);
    }
  }

  lemma {:induction false} LeftSolid(s: Bytes)
    ensures TrimLeft(s) != [] ==> !IsSpaceByte(TrimLeft(s)[0])
  {
    if s != [] && IsSpaceByte(s[0]) {
      LeftSolid(s[1..]);
    }
  }

  lemma TrimOpens(body: Bytes)
    ensures TrimSpace(body) != [] && TrimSpace(body)[0] == BRACE <==> OpensObject(body)
  {
    LeftOpens(body);
    LeftSolid(body);
    if TrimLeft(body) != [] {
      RightKeepsHead(TrimLeft(body));
    }
  }

  /** A body that is a JSON object succeeds exactly when it is within the limit
      of one event and reports a completion of exactly the model asked for. */
  lemma ObjectSucceeds(body: Bytes, model: string, decode: Decoder)
    requires OpensObject(body)
    ensures EvaluateProbeBody(body, model, decode).Success()
       <==> |body| <= 1_048_576 && decode(body).Some? && Reports(decode(body).value, model)
  {
    TrimOpens(body);
    if decode(body).Some? {
      var m := decode(body).value;
      CompletedMeans(m, model);
      CompletedMeans(m, CompletedModel(m));
    }
  }

  /** And the model that it names is the one that the body reports. */
  lemma ObjectNames(body: Bytes, model: string, decode: Decoder, actual: string)
    requires OpensObject(body) && actual != ""
    ensures EvaluateProbeBody(body, model, decode).actual == actual
       <==> |body| <= 1_048_576 && decode(body).Some? && Reports(decode(body).value, actual)
  {
    TrimOpens(body);
    if decode(body).Some? {
      var m := decode(body).value;
      CompletedMeans(m, actual);
      CompletedMeans(m, CompletedModel(m));
    }
  }

  /** Any other body succeeds exactly when it is an accepted stream. */
  lemma StreamSucceeds(body: Bytes, model: string, decode: Decoder)
    requires !OpensObject(body)
    ensures EvaluateProbeBody(body, model, decode).Success() <==> Accepts(body, model, decode)
  {
    TrimOpens(body);
    SuccessIffAccepted([body], model, decode);
    assert [body][1..] == [];
    assert Flatten([body]) == body + Flatten([]) == body;
    assert AfterChunks(NewParser(model), decode, [body])
        == AfterChunks(AfterFeed(NewParser(model), decode, body), decode, []);
  }

  /** A body that succeeds, of whichever form. */
  ghost predicate BodySucceeds(body: Bytes, model: string, decode: Decoder) {
    if OpensObject(body) then |body| <= 1_048_576 && decode(body).Some? && Reports(decode(body).value, model)
    else Accepts(body, model, decode)
  }

  lemma BodyMeans(body: Bytes, model: string, decode: Decoder)
    ensures EvaluateProbeBody(body, model, decode).Success() <==> BodySucceeds(body, model, decode)
  {
    if OpensObject(body) {
      ObjectSucceeds(body, model, decode);
    } else {
      StreamSucceeds(body, model, decode);
    }
  }
}
