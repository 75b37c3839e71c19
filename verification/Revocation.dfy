/** A streamed response that completes with another model costs the ticket that
    its request was sent with (internal/prewarm/engine.go, Bind to Complete). */
module Revocation {
  import opened Base
  import opened PrewarmConfig
  import opened Completions
  import opened CompletionStream
  import opened EngineState
  import opened EngineInvariants
  import opened Protocol
  import opened Invariants
  import opened Preservation
  import opened Runs
  import opened Guarantees

  /** The observation of the request is live, of this ticket, and in this state. */
  predicate Tracks(s: System, id: string, k: Key, t: Ticket, p: Parser) {
    && id in s.engine.requests && id in s.handed && s.handed[id] == t
    && s.engine.requests[id].key == k && s.engine.requests[id].version == t.version
    && s.engine.requests[id].observer == Some(p)
  }

  /** Nothing rebinds, completes or purges the request, and no JSON body comes. */
  predicate Streaming(s: System, o: Occurrence, id: string) {
    && !(o.event.BindRequest? && o.event.id == id)
    && !(o.event.ResponseJSON? && o.event.id == id)
    && !(o.event.RequestComplete? && o.event.id == id)
    && !Purges(s.engine, o.event, o.now, id)
  }

  predicate IsChunk(o: Occurrence, id: string) {
    o.event.ResponseChunk? && o.event.id == id
  }

  /** The chunks that the request's response came in. */
  function ChunksOf(occurrences: seq<Occurrence>, id: string): seq<Bytes> {
    if occurrences == [] then []
    else
      var o, before := occurrences[|occurrences| - 1], ChunksOf(occurrences[..|occurrences| - 1], id);
      if IsChunk(o, id) then before + [o.event.bytes] else before
  }

  function AfterOccurrence(p: Parser, decode: Decoder, o: Occurrence, id: string): Parser {
    if IsChunk(o, id) then AfterFeed(p, decode, o.event.bytes) else p
  }

  lemma {:induction false} ChunksAppend(p: Parser, decode: Decoder, chunks: seq<Bytes>, bytes: Bytes)
    ensures AfterChunks(p, decode, chunks + [bytes]) == AfterFeed(AfterChunks(p, decode, chunks), decode, bytes)
    decreases |chunks|
  {
    if chunks == [] {
      assert ([] + [bytes])[1..] == [];
      assert AfterChunks(p, decode, [bytes]) == AfterChunks(AfterFeed(p, decode, bytes), decode, []);
    } else {
      assert (chunks + [bytes])[1..] == chunks[1..] + [bytes];
      ChunksAppend(AfterFeed(p, decode, chunks[0]), decode, chunks[1..], bytes);
    }
  }

  /** The other events keep the observation as it is. */
  lemma OthersKeepTrack(env: Env, s: System, ev: Event, now: Time, id: string)
    requires WellFormed(env.cfg, s.engine) && Enabled(env, s, ev, now) && id in s.engine.requests
    requires !(ev.BindRequest? && ev.id == id) && !IsCallback(ev, id) && !Purges(s.engine, ev, now, id)
    ensures KeepsRequest(s.engine, Next(env, s, ev, now).engine, id)
  {
    if ev.Scheduler? {
      ScheduleKeeps(env.cfg, s.engine, ev.order, now);
    } else if ev.Work? {
      WorkLeavesAlone(env, s.(clock := now), ev.w, ev.input, now);
    } else {
      ElsewhereKeepsRequest(env, s, ev, now, id);
    }
  }

  lemma HandedKept(env: Env, s: System, ev: Event, now: Time, id: string)
    requires Enabled(env, s, ev, now) && id in s.handed && !(ev.BindRequest? && ev.id == id)
    ensures id in Next(env, s, ev, now).handed && Next(env, s, ev, now).handed[id] == s.handed[id]
  {
  }

  lemma ChunkTracks(cfg: Config, e: State, id: string, bytes: Bytes, decode: Decoder, now: Time)
    requires WellFormed(cfg, e) && id in e.requests && e.requests[id].observer.Some?
    ensures var e' := OnChunk(e, id, bytes, decode, now);
            && id in e'.requests
            && e'.requests[id]
            == e.requests[id].(observer := Some(AfterFeed(e.requests[id].observer.value, decode, bytes)))
  {
    ObservedKeeps(cfg, e, id, AfterFeed(e.requests[id].observer.value, decode, bytes), now);
  }

  lemma TracksOn(env: Env, s: System, o: Occurrence, s': System, id: string, k: Key, t: Ticket, p: Parser)
    requires WellFormed(env.cfg, s.engine) && Occurs(env, s, o, s') && Tracks(s, id, k, t, p) && Streaming(s, o, id)
    ensures Tracks(s', id, k, t, AfterOccurrence(p, env.decode, o, id))
  {
    HandedKept(env, s, o.event, o.now, id);
    if IsChunk(o, id) {
      ChunkTracks(env.cfg, s.engine, id, o.event.bytes, env.decode, o.now);
    } else if o.event.ResponseHeaders? && o.event.id == id {
      HeadersKeep(env.cfg, s.engine, id, o.event.headers, o.now);
    } else {
      OthersKeepTrack(env, s, o.event, o.now, id);
    }
  }

  /** The request is tracked as far as its response has come. */
  ghost predicate TracksTo(env: Env, states: seq<System>, occurrences: seq<Occurrence>, b: nat, i: nat, id: string,
                           k: Key, t: Ticket)
    requires b < i < |states| && |states| == |occurrences| + 1
  {
    Tracks(states[i], id, k, t, AfterChunks(NewParser(k.model), env.decode, ChunksOf(occurrences[b + 1..i], id)))
  }

  lemma ParserNext(p: Parser, decode: Decoder, occurrences: seq<Occurrence>, b: nat, i: nat, id: string)
    requires b < i < |occurrences|
    ensures AfterChunks(p, decode, ChunksOf(occurrences[b + 1..i + 1], id))
         == AfterOccurrence(AfterChunks(p, decode, ChunksOf(occurrences[b + 1..i], id)), decode, occurrences[i], id)
  {
    assert occurrences[b + 1..i + 1][..i - b - 1] == occurrences[b + 1..i];
    if IsChunk(occurrences[i], id) {
      ChunksAppend(p, decode, ChunksOf(occurrences[b + 1..i], id), occurrences[i].event.bytes);
    }
  }

  lemma TracksNext(env: Env, states: seq<System>, occurrences: seq<Occurrence>, b: nat, i: nat, id: string, k: Key,
                   t: Ticket)
    requires IsRun(env, states, occurrences) && b < i < |occurrences|
    requires TracksTo(env, states, occurrences, b, i, id, k, t) && Streaming(states[i], occurrences[i], id)
    ensures TracksTo(env, states, occurrences, b, i + 1, id, k, t)
  {
    RunWellFormed(env, states, occurrences, i);
    RunStep(env, states, occurrences, i);
    ParserNext(NewParser(k.model), env.decode, occurrences, b, i, id);
    TracksOn(env, states[i], occurrences[i], states[i + 1], id, k, t,
             AfterChunks(NewParser(k.model), env.decode, ChunksOf(occurrences[b + 1..i], id)));
  }

  lemma {:induction false} TracksThroughout(env: Env, states: seq<System>, occurrences: seq<Occurrence>, b: nat, c: nat,
                                            id: string, k: Key, t: Ticket)
    requires |states| == |occurrences| + 1 && b < c < |states|
    requires TracksTo(env, states, occurrences, b, b + 1, id, k, t)
    requires forall i | b < i < c :: TracksTo(env, states, occurrences, b, i, id, k, t) ==>
                                       TracksTo(env, states, occurrences, b, i + 1, id, k, t)
    ensures TracksTo(env, states, occurrences, b, c, id, k, t)
    decreases c
  {
    if b + 1 < c {
      TracksThroughout(env, states, occurrences, b, c - 1, id, k, t);
    }
  }

  /** The step is a first Bind of the request, and hits with the ticket. */
  ghost predicate FirstHit(env: Env, s: System, o: Occurrence, id: string, k: Key, t: Ticket) {
    HandsTo(env, s, o, id, t) && o.event.key == k && id !in s.engine.requests
  }

  lemma BindStartsTrack(cfg: Config, e: State, id: string, k: Key, reply: Option<Identity>, callerState: bool,
                        now: Time)
    requires id !in e.requests && Bind(cfg, e, id, k, reply, callerState, now).1.Some?
    ensures var (e', hit) := Bind(cfg, e, id, k, reply, callerState, now);
            && id in e'.requests && e'.requests[id].key == k && e'.requests[id].version == hit.value.version
            && e'.requests[id].observer == Some(NewParser(k.model))
  {
    DropStaleShape(cfg, e, k, reply, now);
    OfferRequests(cfg, DropStale(cfg, e, k, reply, now), id, k, Some(NewParser(k.model)), callerState, now);
  }

  lemma HitStartsTrack(env: Env, s: System, o: Occurrence, s': System, id: string, k: Key, t: Ticket)
    requires Occurs(env, s, o, s') && FirstHit(env, s, o, id, k, t)
    ensures Tracks(s', id, k, t, NewParser(k.model))
  {
    BindStartsTrack(env.cfg, s.engine, id, k, Described(o.event.reply), o.event.callerState, o.now);
  }

  /** Completing a request whose observer ends in a mismatch leaves its ticket with
      nobody. */
  lemma CompleteRevokes(env: Env, s: System, o: Occurrence, s': System, id: string, k: Key, t: Ticket, p: Parser)
    requires ObservationsOk(s.engine.requests, s.published, s.handed) && TicketsOk(s.engine, s.published)
    requires Occurs(env, s, o, s') && o.event == RequestComplete(id)
    requires Tracks(s, id, k, t, p) && AfterFinish(p, env.decode).Mismatch()
    ensures !(s'.engine.HasTicket(k) && s'.engine.records[k].value.value == t)
  {
    WatchdogActs(env, s, o.event, id, o.now, k);
  }

  /** A request is bound for the first time and hits, its response comes in chunks,
      and it completes. If the stream, up to its first malformed part, completes
      with another model, the ticket is held no more once the request is complete. */
  lemma ContradictionRevokes(env: Env, states: seq<System>, occurrences: seq<Occurrence>, b: nat, c: nat, id: string,
                             k: Key, t: Ticket)
    requires IsRun(env, states, occurrences) && b < c < |occurrences|
    requires FirstHit(env, states[b], occurrences[b], id, k, t)
    requires forall i | b < i < c :: Streaming(states[i], occurrences[i], id)
    requires occurrences[c].event == RequestComplete(id)
    requires Contradicts(Flatten(ChunksOf(occurrences[b + 1..c], id)), k.model, env.decode)
    ensures !(states[c + 1].engine.HasTicket(k) && states[c + 1].engine.records[k].value.value == t)
  {
    RunStep(env, states, occurrences, b);
    HitStartsTrack(env, states[b], occurrences[b], states[b + 1], id, k, t);
    assert occurrences[b + 1..b + 1] == [];
    forall i | b < i < c && TracksTo(env, states, occurrences, b, i, id, k, t)
      ensures TracksTo(env, states, occurrences, b, i + 1, id, k, t)
    {
      TracksNext(env, states, occurrences, b, i, id, k, t);
    }
    TracksThroughout(env, states, occurrences, b, c, id, k, t);
    var chunks := ChunksOf(occurrences[b + 1..c], id);
    MismatchIffContradicts(chunks, k.model, env.decode);
    RunInv(env, states, occurrences, c);
    RunStep(env, states, occurrences, c);
    CompleteRevokes(env, states[c], occurrences[c], states[c + 1], id, k, t,
                    AfterChunks(NewParser(k.model), env.decode, chunks));
  }
}
