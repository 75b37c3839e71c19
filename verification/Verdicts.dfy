/** When a response costs the ticket that its request was sent with, read off the
    response itself: its headers, its JSON body, or its stream
    (internal/prewarm/engine.go, Headers, JSON, Chunk and Complete). */
module Verdicts {
  import opened Base
  import opened PrewarmConfig
  import opened Completions
  import opened CompletionStream
  import opened EngineState
  import opened EngineInvariants
  import opened Protocol
  import opened Invariants
  import opened Preservation
  import opened Runs
  import opened Guarantees
  import opened Revocation
  import opened Plans
  import opened ProbeBody
  import Text

  /** The headers of a response take the watched ticket away exactly when they
      contradict its plan or carry a state that a ticket cannot have led to. */
  lemma HeadersRevokeIff(e: State, id: string, h: Headers, now: Time)
    requires id in e.requests && Watches(e, e.requests[id])
    ensures var k := e.requests[id].key;
            !OnHeaders(e, id, h, now).HasTicket(k) <==> HeadersContradict(h, e.PlanOf(k))
  {
    RevokingMeans(h, e.PlanOf(e.requests[id].key));
    InvalidateOnlyWatched(e, e.requests[id], now);
  }

  // ---- Over runs ---------------------------------------------------------

  predicate Holds(s: System, k: Key, t: Ticket) {
    k in s.engine.records && s.engine.records[k].value == Some(t)
  }

  /** The request is rebound, completed or purged. */
  predicate Ends(s: System, o: Occurrence, id: string) {
    || (o.event.BindRequest? && o.event.id == id)
    || (o.event.RequestComplete? && o.event.id == id)
    || Purges(s.engine, o.event, o.now, id)
  }

  predicate Observing(s: System, id: string, k: Key, t: Ticket) {
    && id in s.engine.requests && s.engine.requests[id].observer.Some?
    && Tracks(s, id, k, t, s.engine.requests[id].observer.value)
  }

  lemma JSONTracks(cfg: Config, e: State, id: string, bytes: Bytes, decode: Decoder, now: Time)
    requires WellFormed(cfg, e) && id in e.requests && e.requests[id].observer.Some?
    ensures var e' := OnJSON(e, id, bytes, decode, now);
            && id in e'.requests
            && e'.requests[id]
            == e.requests[id].(observer := Some(AfterJSON(e.requests[id].observer.value, decode, bytes)))
  {
    ObservedKeeps(cfg, e, id, AfterJSON(e.requests[id].observer.value, decode, bytes), now);
  }

  lemma ObservingOn(env: Env, s: System, o: Occurrence, s': System, id: string, k: Key, t: Ticket)
    requires WellFormed(env.cfg, s.engine) && Occurs(env, s, o, s') && Observing(s, id, k, t) && !Ends(s, o, id)
    ensures Observing(s', id, k, t)
  {
    if o.event.ResponseJSON? && o.event.id == id {
      HandedKept(env, s, o.event, o.now, id);
      JSONTracks(env.cfg, s.engine, id, o.event.bytes, env.decode, o.now);
    } else {
      TracksOn(env, s, o, s', id, k, t, s.engine.requests[id].observer.value);
    }
  }

  lemma ObservingAt(env: Env, states: seq<System>, occurrences: seq<Occurrence>, i: nat, id: string, k: Key, t: Ticket)
    requires IsRun(env, states, occurrences) && i < |occurrences|
    requires Observing(states[i], id, k, t) && !Ends(states[i], occurrences[i], id)
    ensures Observing(states[i + 1], id, k, t)
  {
    RunWellFormed(env, states, occurrences, i);
    RunStep(env, states, occurrences, i);
    ObservingOn(env, states[i], occurrences[i], states[i + 1], id, k, t);
  }

  lemma {:induction false} ObservingLasts(states: seq<System>, b: nat, c: nat, id: string, k: Key, t: Ticket)
    requires b <= c < |states| && Observing(states[b], id, k, t)
    requires forall i | b <= i < c :: Observing(states[i], id, k, t) ==> Observing(states[i + 1], id, k, t)
    ensures Observing(states[c], id, k, t)
  {
    if b < c {
      ObservingLasts(states, b, c - 1, id, k, t);
    }
  }

  /** From its first hit on, the request is observed until it ends. */
  lemma ObservedSinceHit(env: Env, states: seq<System>, occurrences: seq<Occurrence>, b: nat, c: nat, id: string,
                         k: Key, t: Ticket)
    requires IsRun(env, states, occurrences) && b < c < |states|
    requires FirstHit(env, states[b], occurrences[b], id, k, t)
    requires forall i | b < i < c :: !Ends(states[i], occurrences[i], id)
    ensures Observing(states[c], id, k, t)
  {
    RunStep(env, states, occurrences, b);
    HitStartsTrack(env, states[b], occurrences[b], states[b + 1], id, k, t);
    forall i | b + 1 <= i < c && Observing(states[i], id, k, t)
      ensures Observing(states[i + 1], id, k, t)
    {
      ObservingAt(env, states, occurrences, i, id, k, t);
    }
    ObservingLasts(states, b + 1, c, id, k, t);
  }

  lemma HeadersStep(env: Env, s: System, o: Occurrence, s': System, id: string, k: Key, t: Ticket)
    requires ObservationsOk(s.engine.requests, s.published, s.handed) && TicketsOk(s.engine, s.published)
    requires Occurs(env, s, o, s') && o.event.ResponseHeaders? && o.event.id == id && Observing(s, id, k, t)
    ensures Holds(s', k, t) <==> Holds(s, k, t) && !HeadersContradict(o.event.headers, s.engine.PlanOf(k))
  {
    WatchdogActs(env, s, o.event, id, o.now, k);
  }

  /** A request is bound for the first time and hits. As long as it is not rebound,
      completed or purged, the headers of its response cost the ticket exactly when
      they contradict it; and they bring no ticket. */
  lemma HeadersRevoke(env: Env, states: seq<System>, occurrences: seq<Occurrence>, b: nat, c: nat, id: string, k: Key,
                      t: Ticket)
    requires IsRun(env, states, occurrences) && b < c < |occurrences|
    requires FirstHit(env, states[b], occurrences[b], id, k, t)
    requires forall i | b < i < c :: !Ends(states[i], occurrences[i], id)
    requires occurrences[c].event.ResponseHeaders? && occurrences[c].event.id == id
    ensures Holds(states[c + 1], k, t)
       <==> Holds(states[c], k, t) && !HeadersContradict(occurrences[c].event.headers, states[c].engine.PlanOf(k))
  {
    ObservedSinceHit(env, states, occurrences, b, c, id, k, t);
    RunInv(env, states, occurrences, c);
    RunStep(env, states, occurrences, c);
    HeadersStep(env, states[c], occurrences[c], states[c + 1], id, k, t);
  }

  // ---- A JSON body -------------------------------------------------------

  /** The body reports the completion of another model. */
  ghost predicate BodyContradicts(body: Bytes, model: string, decode: Decoder) {
    |body| <= 1_048_576 && decode(body).Some? && exists other | other != model :: Reports(decode(body).value, other)
  }

  lemma JSONMismatch(model: string, decode: Decoder, body: Bytes)
    ensures AfterJSON(NewParser(model), decode, body).Mismatch() <==> BodyContradicts(body, model, decode)
  {
    if decode(body).Some? {
      var m := decode(body).value;
      CompletedMeans(m, CompletedModel(m));
      forall other | Reports(m, other)
        ensures other == CompletedModel(m)
      {
        CompletedMeans(m, other);
      }
    }
  }

  lemma JSONStep(env: Env, s: System, o: Occurrence, s': System, id: string, k: Key, t: Ticket)
    requires ObservationsOk(s.engine.requests, s.published, s.handed) && TicketsOk(s.engine, s.published)
    requires Occurs(env, s, o, s') && o.event.ResponseJSON? && o.event.id == id
    requires Tracks(s, id, k, t, NewParser(k.model))
    ensures Holds(s', k, t) <==> Holds(s, k, t) && !BodyContradicts(o.event.bytes, k.model, env.decode)
  {
    JSONMismatch(k.model, env.decode, o.event.bytes);
    WatchdogActs(env, s, o.event, id, o.now, k);
  }

  predicate Heard(o: Occurrence, id: string) {
    (o.event.ResponseChunk? || o.event.ResponseJSON?) && o.event.id == id
  }

  lemma {:induction false} UnheardTracks(env: Env, states: seq<System>, occurrences: seq<Occurrence>, b: nat, c: nat,
                                         id: string, k: Key, t: Ticket)
    requires |states| == |occurrences| + 1 && b <= c < |states| && Tracks(states[b], id, k, t, NewParser(k.model))
    requires forall i | b <= i < c :: Tracks(states[i], id, k, t, NewParser(k.model)) ==>
                                        Tracks(states[i + 1], id, k, t, NewParser(k.model))
    ensures Tracks(states[c], id, k, t, NewParser(k.model))
  {
    if b < c {
      UnheardTracks(env, states, occurrences, b, c - 1, id, k, t);
    }
  }

  lemma UnheardAt(env: Env, states: seq<System>, occurrences: seq<Occurrence>, i: nat, id: string, k: Key, t: Ticket)
    requires IsRun(env, states, occurrences) && i < |occurrences| && Tracks(states[i], id, k, t, NewParser(k.model))
    requires !Ends(states[i], occurrences[i], id) && !Heard(occurrences[i], id)
    ensures Tracks(states[i + 1], id, k, t, NewParser(k.model))
  {
    RunWellFormed(env, states, occurrences, i);
    RunStep(env, states, occurrences, i);
    TracksOn(env, states[i], occurrences[i], states[i + 1], id, k, t, NewParser(k.model));
  }

  /** The JSON body of its response costs the ticket exactly when it reports the
      completion of another model than the one asked for. */
  lemma BodyRevokes(env: Env, states: seq<System>, occurrences: seq<Occurrence>, b: nat, c: nat, id: string, k: Key,
                    t: Ticket)
    requires IsRun(env, states, occurrences) && b < c < |occurrences|
    requires FirstHit(env, states[b], occurrences[b], id, k, t)
    requires forall i | b < i < c :: !Ends(states[i], occurrences[i], id) && !Heard(occurrences[i], id)
    requires occurrences[c].event.ResponseJSON? && occurrences[c].event.id == id
    ensures Holds(states[c + 1], k, t)
       <==> Holds(states[c], k, t) && !BodyContradicts(occurrences[c].event.bytes, k.model, env.decode)
  {
    RunStep(env, states, occurrences, b);
    HitStartsTrack(env, states[b], occurrences[b], states[b + 1], id, k, t);
    forall i | b + 1 <= i < c && Tracks(states[i], id, k, t, NewParser(k.model))
      ensures Tracks(states[i + 1], id, k, t, NewParser(k.model))
    {
      UnheardAt(env, states, occurrences, i, id, k, t);
    }
    UnheardTracks(env, states, occurrences, b + 1, c, id, k, t);
    RunInv(env, states, occurrences, c);
    RunStep(env, states, occurrences, c);
    JSONStep(env, states[c], occurrences[c], states[c + 1], id, k, t);
  }

  // ---- A stream that does not contradict ---------------------------------

  lemma EventKeepsMismatch(p: Parser, decode: Decoder)
    requires p.Mismatch()
    ensures AfterEvent(p, decode).Mismatch() && AfterLine(p, decode).Mismatch()
  {
  }

  lemma {:induction false} FeedKeepsMismatch(p: Parser, decode: Decoder, bytes: Bytes)
    requires p.Mismatch()
    ensures AfterFeed(p, decode, bytes).Mismatch()
    decreases |bytes|
  {
    if bytes != [] {
      EventKeepsMismatch(p, decode);
      FeedKeepsMismatch(AfterByte(p, decode, bytes[0]), decode, bytes[1..]);
    }
  }

  lemma FinishKeepsMismatch(p: Parser, decode: Decoder)
    requires p.Mismatch()
    ensures AfterFinish(p, decode).Mismatch()
  {
    EventKeepsMismatch(p, decode);
    EventKeepsMismatch(AfterLine(p, decode), decode);
  }

  lemma {:induction false} ChunksKeepMismatch(p: Parser, decode: Decoder, chunks: seq<Bytes>)
    requires p.Mismatch()
    ensures AfterChunks(p, decode, chunks).Mismatch()
    decreases |chunks|
  {
    if chunks != [] {
      FeedKeepsMismatch(p, decode, chunks[0]);
      ChunksKeepMismatch(AfterFeed(p, decode, chunks[0]), decode, chunks[1..]);
    }
  }

  lemma {:induction false} ChunksSplit(p: Parser, decode: Decoder, a: seq<Bytes>, b: seq<Bytes>)
    ensures AfterChunks(p, decode, a + b) == AfterChunks(AfterChunks(p, decode, a), decode, b)
    decreases |a|
  {
    if a == [] {
      assert a + b == b;
    } else {
      assert (a + b)[1..] == a[1..] + b;
      ChunksSplit(AfterFeed(p, decode, a[0]), decode, a[1..], b);
    }
  }

  /** A stream that does not contradict the model gives no cause before its end. */
  lemma NoEarlyMismatch(model: string, decode: Decoder, heard: seq<Bytes>, rest: seq<Bytes>)
    requires !Contradicts(Flatten(heard + rest), model, decode)
    ensures !AfterChunks(NewParser(model), decode, heard).Mismatch()
  {
    var p := AfterChunks(NewParser(model), decode, heard);
    MismatchIffContradicts(heard + rest, model, decode);
    ChunksSplit(NewParser(model), decode, heard, rest);
    if p.Mismatch() {
      ChunksKeepMismatch(p, decode, rest);
      FinishKeepsMismatch(AfterChunks(p, decode, rest), decode);
    }
  }

  lemma {:induction false} ChunksOfSplit(occurrences: seq<Occurrence>, i: nat, id: string)
    requires i <= |occurrences|
    ensures ChunksOf(occurrences, id) == ChunksOf(occurrences[..i], id) + ChunksOf(occurrences[i..], id)
  {
    var n := |occurrences|;
    if i == n {
      assert occurrences[..i] == occurrences && occurrences[i..] == [];
    } else {
      ChunksOfSplit(occurrences[..n - 1], i, id);
      assert occurrences[..n - 1][..i] == occurrences[..i];
      assert occurrences[i..][..n - 1 - i] == occurrences[..n - 1][i..];
    }
  }

  lemma ChunkSpares(env: Env, s: System, o: Occurrence, s': System, id: string, k: Key, t: Ticket, p: Parser)
    requires ObservationsOk(s.engine.requests, s.published, s.handed) && TicketsOk(s.engine, s.published)
    requires Occurs(env, s, o, s') && Tracks(s, id, k, t, p) && Holds(s, k, t)
    requires IsChunk(o, id) && !AfterFeed(p, env.decode, o.event.bytes).Mismatch()
    ensures Holds(s', k, t)
  {
    WatchdogActs(env, s, o.event, id, o.now, k);
  }

  lemma CompleteSpares(env: Env, s: System, o: Occurrence, s': System, id: string, k: Key, t: Ticket, p: Parser)
    requires ObservationsOk(s.engine.requests, s.published, s.handed) && TicketsOk(s.engine, s.published)
    requires Occurs(env, s, o, s') && Tracks(s, id, k, t, p) && Holds(s, k, t)
    requires o.event == RequestComplete(id) && !AfterFinish(p, env.decode).Mismatch()
    ensures Holds(s', k, t)
  {
    WatchdogActs(env, s, o.event, id, o.now, k);
  }

  /** The stream of the response, as far as the run goes. */
  function StreamOf(occurrences: seq<Occurrence>, b: nat, c: nat, id: string): seq<Bytes>
    requires b < c <= |occurrences|
  {
    ChunksOf(occurrences[b + 1..c], id)
  }

  lemma TrackedSinceHit(env: Env, states: seq<System>, occurrences: seq<Occurrence>, b: nat, c: nat, id: string, k: Key,
                        t: Ticket)
    requires IsRun(env, states, occurrences) && b < c < |states|
    requires FirstHit(env, states[b], occurrences[b], id, k, t)
    requires forall i | b < i < c :: Streaming(states[i], occurrences[i], id)
    ensures TracksTo(env, states, occurrences, b, c, id, k, t)
  {
    RunStep(env, states, occurrences, b);
    HitStartsTrack(env, states[b], occurrences[b], states[b + 1], id, k, t);
    assert occurrences[b + 1..b + 1] == [];
    forall i | b < i < c && TracksTo(env, states, occurrences, b, i, id, k, t)
      ensures TracksTo(env, states, occurrences, b, i + 1, id, k, t)
    {
      TracksNext(env, states, occurrences, b, i, id, k, t);
    }
    TracksThroughout(env, states, occurrences, b, c, id, k, t);
  }

  lemma StreamGrows(occurrences: seq<Occurrence>, b: nat, i: nat, c: nat, id: string)
    requires b < i < c <= |occurrences| && IsChunk(occurrences[i], id)
    ensures StreamOf(occurrences, b, i + 1, id) == StreamOf(occurrences, b, i, id) + [occurrences[i].event.bytes]
    ensures StreamOf(occurrences, b, i + 1, id) <= StreamOf(occurrences, b, c, id)
  {
    var all := occurrences[b + 1..c];
    ChunksOfSplit(all, i - b, id);
    assert all[..i - b] == occurrences[b + 1..i + 1];
    assert occurrences[b + 1..i + 1][..i - b - 1] == occurrences[b + 1..i];
  }

  lemma ConsistentAt(occurrences: seq<Occurrence>, b: nat, i: nat, c: nat, id: string, model: string, decode: Decoder)
    requires b < i < c <= |occurrences| && IsChunk(occurrences[i], id)
    requires !Contradicts(Flatten(StreamOf(occurrences, b, c, id)), model, decode)
    ensures !AfterFeed(AfterChunks(NewParser(model), decode, StreamOf(occurrences, b, i, id)), decode,
                       occurrences[i].event.bytes).Mismatch()
  {
    StreamGrows(occurrences, b, i, c, id);
    var heard, all := StreamOf(occurrences, b, i + 1, id), StreamOf(occurrences, b, c, id);
    assert all == heard + all[|heard|..];
    NoEarlyMismatch(model, decode, heard, all[|heard|..]);
    ChunksAppend(NewParser(model), decode, StreamOf(occurrences, b, i, id), occurrences[i].event.bytes);
  }

  lemma RunWatched(env: Env, states: seq<System>, occurrences: seq<Occurrence>, i: nat)
    requires IsRun(env, states, occurrences) && i < |states|
    ensures ObservationsOk(states[i].engine.requests, states[i].published, states[i].handed)
    ensures TicketsOk(states[i].engine, states[i].published)
  {
    RunInv(env, states, occurrences, i);
  }

  lemma ChunkSparesAt(env: Env, states: seq<System>, occurrences: seq<Occurrence>, i: nat, id: string, k: Key,
                      t: Ticket, p: Parser)
    requires IsRun(env, states, occurrences) && i < |occurrences|
    requires Tracks(states[i], id, k, t, p) && Holds(states[i], k, t)
    requires IsChunk(occurrences[i], id) && !AfterFeed(p, env.decode, occurrences[i].event.bytes).Mismatch()
    ensures Holds(states[i + 1], k, t)
  {
    RunWatched(env, states, occurrences, i);
    RunStep(env, states, occurrences, i);
    ChunkSpares(env, states[i], occurrences[i], states[i + 1], id, k, t, p);
  }

  lemma CompleteSparesAt(env: Env, states: seq<System>, occurrences: seq<Occurrence>, i: nat, id: string, k: Key,
                         t: Ticket, p: Parser)
    requires IsRun(env, states, occurrences) && i < |occurrences|
    requires Tracks(states[i], id, k, t, p) && Holds(states[i], k, t)
    requires occurrences[i].event == RequestComplete(id) && !AfterFinish(p, env.decode).Mismatch()
    ensures Holds(states[i + 1], k, t)
  {
    RunWatched(env, states, occurrences, i);
    RunStep(env, states, occurrences, i);
    CompleteSpares(env, states[i], occurrences[i], states[i + 1], id, k, t, p);
  }

  /** The other half of ContradictionRevokes: a stream that does not complete with
      another model costs nothing, chunk by chunk. */
  lemma ConsistentChunkSpares(env: Env, states: seq<System>, occurrences: seq<Occurrence>, b: nat, i: nat, c: nat,
                              id: string, k: Key, t: Ticket)
    requires IsRun(env, states, occurrences) && b < i < c <= |occurrences|
    requires FirstHit(env, states[b], occurrences[b], id, k, t)
    requires forall j | b < j < i :: Streaming(states[j], occurrences[j], id)
    requires IsChunk(occurrences[i], id) && Holds(states[i], k, t)
    requires !Contradicts(Flatten(StreamOf(occurrences, b, c, id)), k.model, env.decode)
    ensures Holds(states[i + 1], k, t)
  {
    TrackedSinceHit(env, states, occurrences, b, i, id, k, t);
    ConsistentAt(occurrences, b, i, c, id, k.model, env.decode);
    ChunkSparesAt(env, states, occurrences, i, id, k, t,
                  AfterChunks(NewParser(k.model), env.decode, StreamOf(occurrences, b, i, id)));
  }

  /** Nor does it at its end. */
  lemma ConsistentEndSpares(env: Env, states: seq<System>, occurrences: seq<Occurrence>, b: nat, c: nat, id: string,
                            k: Key, t: Ticket)
    requires IsRun(env, states, occurrences) && b < c < |occurrences|
    requires FirstHit(env, states[b], occurrences[b], id, k, t)
    requires forall j | b < j < c :: Streaming(states[j], occurrences[j], id)
    requires occurrences[c].event == RequestComplete(id) && Holds(states[c], k, t)
    requires !Contradicts(Flatten(StreamOf(occurrences, b, c, id)), k.model, env.decode)
    ensures Holds(states[c + 1], k, t)
  {
    TrackedSinceHit(env, states, occurrences, b, c, id, k, t);
    MismatchIffContradicts(StreamOf(occurrences, b, c, id), k.model, env.decode);
    CompleteSparesAt(env, states, occurrences, c, id, k, t,
                     AfterChunks(NewParser(k.model), env.decode, StreamOf(occurrences, b, c, id)));
  }

  /** A completed request is observed no more, unless it was rebound. */
  lemma CompleteForgets(env: Env, s: System, o: Occurrence, s': System, id: string)
    requires Occurs(env, s, o, s') && o.event == RequestComplete(id)
    ensures id in s'.engine.requests <==> Tombstoned(s.engine, id)
  {
  }
}
