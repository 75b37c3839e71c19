# Verification of the turn-state cache and its prewarm engine

This project models the in-memory logic of the plugin and proves what it promises. It covers the engine that acquires
and verifies turn-state tickets in the background, the observer of completion streams, the passive capture cache, the
probe budget, the interceptors that put these together, the start and shutdown protocol, the check of the configuration
graph, and the reading of the Host's command line.

Two views are kept apart and joined. Code that changes fields under a lock is a class: `TicketEngine.Engine`,
`PassiveCache.Cache`, `ProbeBudget.Budget`, `Completions.Completion`, `Interceptor.Plugin`, `PluginRuntime.Runtime`
and `GraphCheck.Checker` have the fields and the loops of the source, and each method is proved to have the effect that
a specification function or relation gives it. The theorems are about these specifications: over every state, every run
and every interleaving.

## The protocol

`Protocol` is the engine as a transition system. Every region under the engine lock is one step, and so is every Host
call. A run of `collect` is a program counter with the Host calls made so far. Host replies, clock readings, discovery
snapshots, map orders and the moment at which a cancellation is noticed are chosen by the environment. Workers take jobs
and step; the scheduler, discovery, request callbacks and closing come in between at any point. `Invariants` lists what
holds in every state, `Preservation` and `Runs` prove it, `Theorems` and `Guarantees` say what follows, and `Evidence`
carries the certificate of a ticket from phase to phase. `EngineState` holds the effect of each locked region;
`Discovering` shows that the loops over a snapshot add up to one.

Correctness rests on three facts. Every loss of a ticket and every change of a plan gives the record an epoch that
nothing had before, and a job publishes only under the epoch it was enqueued with. A record is running exactly while one
job for its key is outstanding. Versions number the publications, so an observation names one ticket.

`Handling` joins the engine protocol and the cache into one machine, in which every request in flight is a handler that
takes its steps one by one: the check of its key, then the steps of `Bind`, or the binding and the lookup in the cache.
`Exclusivity` says what requests are answered with over its runs, and `Gap` has a run in which a managed key gets a
passive entry. `Revocation` and `Verdicts` follow one request from its binding to its completion. `Succession` chains the runs of
engines that share one budget.

What is promised is said twice wherever a test decides it: once as the step that the code takes, and once in terms of
what comes in and goes out, with plan names, lengths and times spelled out (`Plans`, `ProbeBody`). `Collecting` shows
that a good run publishes and `Attempts` what every answer leads to; `Hits` says exactly when `Bind` hands out a ticket,
`Verdicts` when a response costs it, `Scheduling` when work starts and ends, and `Management` which keys are managed.
`Captures` and `Evictions` decide the passive cache by the history of its operations alone.

`Lifecycle` is the protocol of the lifecycle lock, the callback gate and the goroutines of successive engines, with
each assignment under the gate a step of its own. A reader may enter whenever no writer holds the gate; that waiting
writers hold back new readers is not needed.

## Where the code and its comments differ

- The plugin says that a managed key uses verified tickets exclusively (internal/turnstate/interceptor.go:53). The
  check and the passive lookup are separate regions, and a discovery snapshot that selects the account by email can be
  applied between them. `Gap.PassiveAlthoughManaged` is such a run, and `Exclusivity.PassiveWhileManagedIff` gives the
  exact condition: the key was not managed at the check, a snapshot took it over before the lookup, and the lookup hits.
- The reset of a cooling preferred proxy (internal/prewarm/engine.go:345-347) never has an effect, because a preferred
  proxy has no cooldown in any reachable state.
- `runtimeStopped` is described as terminal until native init (cmd/plugin/main.go:93), but it starts as false, so a
  configuration before the first init is accepted. The model starts as the code does.
- `Bind` returns for an unmanaged or unplanned key before it reaches the tombstone, so a retry on such a key does not
  tombstone the request. `Guarantees.RebindTombstones` speaks of the locked section only.

## Model

| member | source | states |
|---|---|---|
| Theorems.TicketsAreCertified | internal/prewarm/engine.go:385-494 | In every run, a held ticket was published for its key by a run of `collect` whose last five Host calls are: a describe of the expected plan; a probe of the right account and model through a configured proxy, without a state, that obtained exactly this state; a describe; a probe without a proxy override carrying exactly this state, whose reply is not of 312 bytes; a describe. All carry the ticket's non-empty scope, both probes succeeded on model and plan, and the state is valid for the plan the key has now |
| Evidence.AdvanceRunOk | internal/prewarm/engine.go:392-494 | Every step of `collect`, from whatever phase and with whatever Host reply, keeps the evidence that its phase relies on: how many of the five calls have been made, and that they support one claim |
| Evidence.PublicationCertified | internal/prewarm/engine.go:482-494 | A run that reaches publication holds the full certificate, and the ticket lives for the configured time from before its acquisition probe |
| Collecting.GoodAttemptPublishes | internal/prewarm/engine.go:392-494 | In every run, whatever happens in between: an attempt of a job that is current at its own steps, with a proxy not cooling down, two probes left in the hour, five convincing answers and time left, leaves the record with exactly the state it obtained, that scope, the next version, the lifetime from its capture and no cooldown, whether the key had a ticket before or not |
| Collecting.GoodJobPublishes | internal/prewarm/engine.go:255-256 | The same from the step at which a worker takes the job from the head of the queue |
| Attempts.CertificateConvinces | internal/prewarm/engine.go:404-482 | Conversely, the five calls of a certificate had convincing answers, spelled out: scope, plan names, status 200, body, lengths and alphabet of the state |
| Attempts.DescribeDecides | internal/prewarm/engine.go:403-411 | Without an identity, without a scope or with another plan the run ends, and otherwise the attempt goes on |
| Attempts.AcquisitionDecides | internal/prewarm/engine.go:421-445 | The first probe: 401, 403 and 429 end the run and count against the proxy, a convincing answer leads on, and any other one counts against the proxy and leads to the next attempt |
| Attempts.RedescribeDecides | internal/prewarm/engine.go:446-455 | Without an identity the run ends, and another scope leads to the next attempt |
| Attempts.VerificationDecides | internal/prewarm/engine.go:456-474 | The second probe decides in the same way, except that its state need only not be of 312 bytes |
| Attempts.ConfirmDecides | internal/prewarm/engine.go:475-481 | The same scope counts for the proxy and leads to publication, and anything else counts against it and leads to the next attempt |
| Attempts.ReserveDecides | internal/prewarm/engine.go:287-300 | An open engine with fewer grants in the last hour than the limit goes on to the probe, and otherwise the run ends as out of budget |
| Attempts.ChoiceDecides | internal/prewarm/engine.go:412-421 | The run goes on with some proxy that is not cooling down, and ends when all are |
| Attempts.PublicationDecides | internal/prewarm/engine.go:482-494 | A ticket is published exactly when the job is current, under the plan the run began with and before the lifetime from its capture is over; otherwise the run is cancelled and the engine stays as it is |
| Attempts.AttemptsAreBounded | internal/prewarm/engine.go:392-500 | In every state of every run, a run of `collect` has made at most the configured number of probes through the pool and five calls for each, and it ends as exhausted only after all of them |
| Attempts.RejectionIsFinal | internal/prewarm/engine.go:310-310 | In every run, an answer of 401, 403 or 429 is the last call of its run of `collect`, which ends as rejected |
| Attempts.ReadyHasPublished | internal/prewarm/engine.go:257-264 | A run of `collect` that ends as ready has published, so that every other end counts as a failure |
| Theorems.OneJobPerKey | internal/prewarm/engine.go:234-279 | In every reachable state the jobs of a key, queued or in a worker's hands, are one if its record exists and is running, and none otherwise |
| Theorems.ExpiriesNeverRegress | internal/prewarm/engine.go:423-494 | Successive tickets of one key have increasing versions and never an earlier expiry |
| Theorems.NoStalePublication | internal/prewarm/discovery.go:23-29 | Once a key's ticket is withdrawn, or its plan changes or goes away, no job that was outstanding at that moment ever publishes for it, however the record is deleted and recreated |
| Theorems.LostForGood | internal/prewarm/engine.go:554-568 | A ticket version that was lost once is held by no record ever after, so several observers of one version revoke at most once |
| Theorems.ClosedIsFinal | internal/prewarm/engine.go:185-185 | A closed engine stays closed, is granted no further probe and publishes no further ticket |
| Theorems.HitsAreLive | internal/prewarm/engine.go:502-553 | A hit of `Bind` comes only from an open engine, for a planned key without a caller's own state; it is the record's ticket, unexpired, and its scope and plan match the identity just described |
| Hits.HitIff | internal/prewarm/engine.go:513-552 | The locked section of `Bind` hands out a ticket exactly when the engine is open, the key is planned and holds it, it has not expired, the identity just described has its scope and a fitting plan, the caller has no state of its own, and fewer requests than the limit are observed |
| Hits.HitObserves | internal/prewarm/engine.go:544-552 | A hit leaves the request observed under the ticket's version, by a new observer unless it was observed before, and changes nothing else |
| Hits.BindDropsIff | internal/prewarm/engine.go:528-531 | `Bind` takes the ticket of its key away exactly when it has expired or the identity no longer supports it, and touches no other key |
| Hits.BindStartsIff | internal/prewarm/engine.go:532-535 | `Bind` starts a job exactly when there is no usable ticket and the key is idle, not cooling down and the queue has room |
| Hits.WholeHitIff | internal/prewarm/engine.go:502-553 | The whole of `Bind`, when nothing interferes, hands out a ticket under the same conditions for a named request |
| Theorems.ProbesStayWithinBudget | internal/prewarm/engine.go:287-300 | Over every run, sent probes and reserved ones together are exactly the grants, and every one-hour window holds at most the limit in force for its last grant, from any budget that `Init` admits |
| Succession.EveryLifeIsARun | cmd/plugin/main.go:298-307 | Of engines that come one after the other on one shared budget, each starting when the workers of the one before have returned, every one starts in a state that `Init` admits, so all that holds of runs holds of each |
| Succession.BudgetOutlivesEngines | internal/prewarm/budget.go:8-30 | Over such a succession every one-hour window holds at most the limit in force for its last grant, whichever engines and whichever limits made the grants, and every probe sent was granted |
| Theorems.AlwaysWellFormed | internal/prewarm/engine.go:234-279 | In every reachable state planned keys have records, unplanned records are running without ticket, tickets fit their plan, no epoch is ahead of the engine's, notes belong to records, requests are bounded, and a preferred proxy has neither failures nor cooldown |
| Runs.NextKeepsInv | internal/prewarm/engine.go:218-285 | Every event of the system, worker steps included, keeps the whole invariant |
| Runs.RunInv | internal/prewarm/engine.go:107-149 | The invariant holds in every state of every run, from the engine that `New` builds and a budget that may already be in use |
| Guarantees.WatchdogIsPrecise | internal/prewarm/engine.go:554-632 | A response callback removes a key's ticket exactly when its verdict is against the very ticket handed out for its request; in every other case the record, with ticket and epoch, is untouched. The verdict on headers is spelled out as in `Verdicts.HeadersRevokeIff`, that on bodies is characterised by `CompletionStream.MismatchIffContradicts` and `Verdicts.BodyRevokes` |
| Verdicts.HeadersRevokeIff | internal/prewarm/engine.go:569-595 | For a request that watches the held ticket: it goes exactly when some spelling of the plan header has a value that is not blank and names another length family than the key's plan, or some spelling of the state header has two values or one of 312 bytes |
| Verdicts.HeadersRevoke | internal/prewarm/engine.go:569-595 | In every run, from the first hit of a request until it is rebound, completed or purged: after its response headers its ticket is held exactly if it was before and the headers do not contradict it |
| Verdicts.BodyRevokes | internal/prewarm/engine.go:608-619 | In every run: after the JSON body of its response its ticket is held exactly if it was before and the body does not report the completion of another model |
| Verdicts.CompleteForgets | internal/prewarm/engine.go:620-632 | A completed request is observed no more, unless it was rebound |
| Guarantees.HandedByBind | internal/prewarm/engine.go:546-552 | The ticket last handed out for a request is the result of a `Bind` of that request earlier in the run |
| Guarantees.RebindTombstones | internal/prewarm/engine.go:515-524 | Once the locked section meets an existing observation, the request is a tombstone dated now, whatever the outcome of `Bind` |
| Guarantees.TombstoneIsDeaf | internal/prewarm/engine.go:554-632 | A callback for a tombstoned request changes nothing in the engine |
| Guarantees.TombstoneLasts | internal/prewarm/engine.go:218-227 | A tombstone survives every event except a scheduler pass more than two hours after its last binding, and until then its request revokes nothing |
| Guarantees.ScheduleCovers | internal/prewarm/engine.go:218-248 | After a scheduler pass of an open engine every planned key has a ticket that is not due, or is running, cooling down, or met a full queue |
| Scheduling.PassStartsIff | internal/prewarm/engine.go:228-248 | A pass starts a job only for a planned, idle key that is not cooling down and has no ticket lasting beyond the refresh window, and for every such key unless the queue is full in the end; it changes nothing else about a record |
| Scheduling.PassForgets | internal/prewarm/engine.go:223-227 | A pass forgets exactly the requests that were bound more than two hours ago |
| Guarantees.ExplicitQueueHasRoom | internal/prewarm/engine.go:143-147 | With explicit accounts the queue has room for every record that is not running |
| Guarantees.RevocationRestarts | internal/prewarm/engine.go:562-565 | A revocation removes the ticket and starts the next acquisition at once, unless the queue is full |
| Guarantees.MissRestarts | internal/prewarm/engine.go:532-539 | A `Bind` that leaves a planned key without a ticket leaves it covered: running, cooling down or out of room |
| Guarantees.FailureCoolsDown | internal/prewarm/engine.go:257-264 | A failed job of the record's own epoch keeps the key from being enqueued for the whole cooldown; one of an older epoch leaves the cooldown alone |
| Scheduling.JobEnds | internal/prewarm/engine.go:257-275 | When a job ends, the record of a planned key rests with ticket and epoch, cooling down exactly after a failure of its own epoch in an open engine; the record of an unplanned key is gone, and no other record moves |
| Scheduling.FailureRestsExactly | internal/prewarm/engine.go:237-239 | After such a failure the key can be started again exactly from the end of the configured cooldown on |
| Scheduling.MarkCounts | internal/prewarm/engine.go:361-384 | The mark of a worker: a success clears the proxy and makes it preferred, the n-th failure in a row rests it for n minutes or the configured cooldown, whichever is less |
| Scheduling.ShutdownCloses | internal/prewarm/engine.go:185-185 | Closing closes the engine and does nothing else to it |
| Guarantees.SnapshotByKey | internal/prewarm/discovery.go:110-142 | An accepted snapshot makes the plans the desired ones; an unchanged plan keeps its record; an added or changed one has no ticket, no cooldown and an epoch above all records and all outstanding jobs; a removed one survives only while running |
| Guarantees.RepeatedSnapshot | internal/prewarm/discovery.go:64-143 | Applying the same snapshot again changes nothing at all, so a refresh that finds the same accounts costs no ticket |
| Guarantees.DesiredIsSelected | internal/prewarm/discovery.go:68-90 | The desired plans are exactly those of the selected accounts of the snapshot with a known plan, for every configured model |
| Guarantees.OwnershipIsPermanent | internal/prewarm/discovery.go:97-109 | A key that an applied snapshot selected is managed in every later state of the run, through removal, plan loss and the overflow of the ownership set |
| Guarantees.PlannedIsManaged | internal/prewarm/engine.go:186-217 | In every state a planned key is managed, with selectors it is owned, and ownership and requests are within their limits |
| Guarantees.ManagementMovesByDiscovery | internal/prewarm/engine.go:186-217 | No event but a discovery snapshot changes plans, ownership or the discovery count |
| Management.ManagedByHistory | internal/prewarm/engine.go:186-217 | With discovered accounts, in every state of every run, a key is managed exactly when its model is configured and there are no selectors, or one names its account by ID, or no snapshot was applied yet, or one so far selected the key, or those so far selected more than 16000 keys |
| Management.ManagedByConfiguration | internal/prewarm/engine.go:214-216 | With explicit accounts a key is managed exactly when an account of the configuration names it, in every state |
| Management.PlansAreLatest | internal/prewarm/discovery.go:110-142 | In every state the plans are those of the selected accounts with a known plan in the last snapshot that was applied, for every configured model |
| Management.PlansAreConfigured | internal/prewarm/engine.go:135-141 | With explicit accounts every configured key keeps the plan of its account |
| Management.SnapshotMeans | internal/prewarm/discovery.go:64-75 | A snapshot is sound exactly when it has at most 1000 accounts with different IDs of at most 1024 bytes, without white space at either end, and each with a known plan or none |
| Management.QueueFitsPlans | internal/prewarm/engine.go:142-147 | With discovered accounts the queue holds 1000 jobs for every configured model, and in every state as many as there are plans |
| TicketEngine.Engine.New | internal/prewarm/engine.go:107-149 | The constructor's loops build the initial state, which is well formed, with a fresh unused budget |
| TicketEngine.Engine.Manages | internal/prewarm/engine.go:186-217 | The three-way test for both configuration modes |
| TicketEngine.Engine.EnqueueLocked | internal/prewarm/engine.go:234-248 | Enqueues at most once, and rolls the running flag back when the queue is full |
| TicketEngine.Engine.Schedule | internal/prewarm/engine.go:218-233 | Purges requests older than two hours and visits every record once, in the order that it reports |
| TicketEngine.Engine.ReserveProbe | internal/prewarm/engine.go:287-291 | Granted exactly when the engine is open and the budget grants; a closed engine leaves the budget alone |
| TicketEngine.Engine.ChooseProxyLocked | internal/prewarm/engine.go:343-360 | The loop chooses as `ProxyPool.Choose` does, and moves only the rotation pointer and the preference |
| TicketEngine.Engine.BumpEpochLocked | internal/prewarm/discovery.go:23-29 | The record gets an epoch above its own and the engine's |
| TicketEngine.Engine.BindLocked | internal/prewarm/engine.go:513-552 | The locked section of `Bind`: tombstone, stale ticket, enqueue, caller state, request limit, hand-out, in that order |
| TicketEngine.Engine.Bind | internal/prewarm/engine.go:502-553 | The whole of `Bind` when nothing interferes; unmanaged and unplanned keys return before the tombstone |
| TicketEngine.Engine.InvalidateLocked | internal/prewarm/engine.go:554-568 | Revokes only the observed version, clears the cooldown and enqueues |
| TicketEngine.Engine.Headers | internal/prewarm/engine.go:569-595 | However many header values call for a revocation, and in whatever order, the effect is one revocation, and there is one exactly when some value contradicts plan or state |
| TicketEngine.Engine.Complete | internal/prewarm/engine.go:620-632 | Finishes the observer, acts on its verdict and drops the observation; a tombstone stays |
| TicketEngine.InvalidateTwice | internal/prewarm/engine.go:576-593 | A second verdict against the same observation changes nothing more |
| TicketEngine.Engine.ReadSnapshot | internal/prewarm/discovery.go:64-90 | Accepts exactly the valid snapshots, and gathers the selected keys, the desired plans and the number of eligible accounts |
| TicketEngine.Engine.ClaimSelected | internal/prewarm/discovery.go:97-109 | In whatever order the keys come, ownership grows by all selected keys or, exactly when they do not all fit, switches to owning all models |
| TicketEngine.Engine.ApplyAccounts | internal/prewarm/discovery.go:64-149 | The loops over accounts, plans and desired plans apply a valid snapshot as a whole; a snapshot that is not valid, or that comes after closing, changes nothing |
| Discovering.LoopsApply | internal/prewarm/discovery.go:97-143 | Claiming, withdrawing and admitting one after the other amounts to an applied snapshot, key by key |
| Discovering.Unsound | internal/prewarm/discovery.go:72-75 | A malformed, repeated or wrongly planned account spoils the snapshot |
| EngineInvariants.EnqueueBalanced | internal/prewarm/engine.go:234-248 | A job enters the queue exactly for the record that starts running |
| EngineInvariants.SnapshotKeeps | internal/prewarm/discovery.go:64-149 | A snapshot keeps the engine well formed, adds no ticket, and renews the epoch of every key it withdraws |
| EngineInvariants.BindKeeps | internal/prewarm/engine.go:502-553 | `Bind` keeps the engine well formed, publishes nothing, and renews the epoch of a ticket it drops |
| ProxyPool.PreferredIsChosen | internal/prewarm/engine.go:343-350 | A preferred proxy never cools down, so the reset of the preference has no effect, and it is the one chosen |
| ProxyPool.ChooseRotates | internal/prewarm/engine.go:351-359 | Without a preferred proxy the choice is -1 exactly when all are cooling, and otherwise the first available one in rotation order |
| ProxyPool.MarkValid | internal/prewarm/engine.go:361-384 | Marks keep the preference sound, touch one proxy only, and cool down no longer than configured |
| ProxyPool.BackoffGrows | internal/prewarm/engine.go:375-380 | Over any sequence of marks at any clock readings, those of other proxies among them: a proxy that failed n times since its last success rests from its last failure for n minutes, or for the configured time if that is less, and one success ends it |
| ProxyPool.RotationVisitsAllOnce | internal/prewarm/engine.go:351-359 | With none preferred or cooling, as many choices as there are proxies visit every proxy exactly once |
| ProxyPool.PreferenceIsLastSuccess | internal/prewarm/engine.go:343-384 | Over any history of choices and marks, a proxy is preferred exactly when it succeeded and since then neither it failed nor another one succeeded |
| ProxyPool.LastSuccessIsChosen | internal/prewarm/engine.go:343-350 | And then it is the next one chosen, at any time |
| ProbeBudget.Budget.Allow | internal/prewarm/budget.go:16-30 | The pruning loop decides and updates the list as `Grants` and `Charge` say |
| ProbeBudget.AllowRefines | internal/prewarm/budget.go:16-30 | The pruned list grants exactly when fewer than the limit of all past grants lie in the last hour, and goes on representing the full history |
| ProbeBudget.ServeRefines | internal/prewarm/budget.go:16-30 | Over any run of calls with a nondecreasing clock the pruned list takes exactly the decisions of the full-history reference |
| ProbeBudget.WindowBound | internal/prewarm/budget.go:8-30 | Every one-hour window, wherever it ends, holds at most the limit of the last grant in it |
| Completions.Completion.Feed | internal/prewarm/completion.go:26-51 | The buffered loop has the effect of the byte-by-byte specification, overflow included, and keeps both buffers within the limit |
| Completions.Completion.ConsumeLine | internal/prewarm/completion.go:52-67 | One line: carriage return, blank line, data field with its leading space, event limit |
| Completions.Completion.JSON | internal/prewarm/completion.go:82-117 | Completion, mismatch and malformed flags after one JSON event |
| Completions.FeedConcat | internal/prewarm/completion.go:26-51 | Feeding a and then b reaches the same state as feeding a + b |
| Completions.ChunkIndependence | internal/prewarm/completion.go:26-51 | Any two ways of cutting a stream into chunks leave the same parser |
| Completions.FeedBounded | internal/prewarm/completion.go:26-67 | The line and event buffers never exceed the event limit |
| Completions.FinishIdempotent | internal/prewarm/completion.go:76-81 | Finish leaves nothing buffered and a second one changes nothing |
| Completions.EvaluateBody | internal/prewarm/completion.go:122-131 | The method computes the verdict and the model of a JSON body or a stream; what they amount to is in `ProbeBody` |
| ProbeBody.ObjectSucceeds | internal/prewarm/completion.go:82-131 | A body whose first byte that is not white space is `{` succeeds exactly when it has at most 1048576 bytes and decodes to a message that reports the completion of exactly the model asked for |
| ProbeBody.ObjectNames | internal/prewarm/completion.go:104-131 | And the model that it names is the one that the message reports |
| ProbeBody.StreamSucceeds | internal/prewarm/completion.go:122-131 | Any other body succeeds exactly when the whole stream is accepted |
| ProbeBody.CompletedMeans | internal/prewarm/completion.go:103-116 | The model an event completes with: that of the response it carries, or its own, both without an error and not blank |
| Collecting.ProbeMeans | internal/prewarm/completion.go:132-138 | A probe succeeds exactly with status 200, at most 4194304 bytes and a body that does |
| StreamFormat.StreamRoundTrip | internal/prewarm/completion.go:52-67 | Events printed with or without a space after `data:`, with either line end on any line and with other fields and comments in between are read back as their data |
| CompletionStream.SuccessIffAccepted | internal/prewarm/completion.go:26-120 | After Finish, success holds exactly when a whole-stream reading finds no oversize or malformed line or event, at least one completion, and only completions of the expected model; under every chunking |
| CompletionStream.MismatchIffContradicts | internal/prewarm/completion.go:26-120 | After Finish, a mismatch is reported exactly when the stream, up to its first oversize or malformed part, has an event that completes with another model; under every chunking |
| Revocation.ContradictionRevokes | internal/prewarm/engine.go:596-632 | In every run: if a request is bound for the first time and hits, and its stream, whose chunks come between any other events, contradicts the model, then the ticket it was given is held no more once the request is complete |
| Verdicts.ConsistentChunkSpares | internal/prewarm/engine.go:596-607 | The other half: as long as the whole stream does not contradict the model, none of its chunks costs the ticket |
| Verdicts.ConsistentEndSpares | internal/prewarm/engine.go:620-632 | Nor does its end |
| PassiveCache.Cache.BindRequest | internal/turnstate/cache.go:93-113 | Purges, then binds or, for an invalid key, forgets; the oldest binding makes room |
| PassiveCache.Cache.BindPlan | internal/turnstate/cache.go:80-90 | A plan is noted for a live binding only |
| PassiveCache.Cache.ForgetRequest | internal/turnstate/cache.go:115-122 | Exactly this binding goes |
| PassiveCache.Cache.Lookup | internal/turnstate/cache.go:125-138 | A hit is an unexpired entry; expired ones are purged and no life is extended |
| PassiveCache.Cache.StoreResponseForRequest | internal/turnstate/cache.go:142-166 | Stores under the bound key exactly when the values are accepted for the supplied or bound plan, and reports whether an entry was replaced; `Captures.StoreThenLookup` says what that means for the next lookup |
| Captures.StoreThenLookup | internal/turnstate/cache.go:125-179 | A response for a binding that has not expired, with a single value of 332 or 292 bytes as its plan demands or of an accepted length, is what every lookup of the key finds for the next hour, whatever entry was there before; any other response stores nothing |
| Capturing.CapturedThenFound | internal/turnstate/interceptor.go:167-205 | The same from the headers of a response: one turn state among all spellings of its header, of the right length for the plan that is named |
| PassiveCache.Cache.PurgeExpiredLocked | internal/turnstate/cache.go:181-192 | Drops exactly what has expired |
| PassiveCache.Cache.EvictEntriesLocked | internal/turnstate/cache.go:194-208 | The loop removes at most one entry, the oldest with ties broken by key, and only from a full map |
| PassiveCache.Cache.EvictPendingLocked | internal/turnstate/cache.go:210-224 | The same for bindings |
| PassiveCache.Cache.ValidatePlanAndLength | internal/turnstate/cache.go:230-258 | One value, of the length that the plan family calls for, or an accepted length when the plan is unknown |
| PassiveCache.OldestUnique | internal/turnstate/cache.go:200-203 | At most one entry is oldest, so the order of the map does not matter |
| PassiveCache.OldestPendingUnique | internal/turnstate/cache.go:216-219 | The same for bindings, whose ties are broken by request ID |
| CacheLog.LookupRefinesLog | internal/turnstate/cache.go:125-224 | With a nondecreasing clock and distinct capture times, a lookup hits exactly when the key's last capture is under one hour old and fewer than the maximum of distinct other keys were captured after it, and returns its value; a capture is a response with one value, of the length that its plan calls for, under a binding that has not expired |
| Evictions.LookupByHistory | internal/turnstate/cache.go:125-224 | With a nondecreasing clock and no other condition, a lookup finds the value that the history of operations accepted last for the key, if that was under an hour ago and no later capture displaced it as the oldest of a full cache, ties included |
| Captures.LogIsHistory | internal/turnstate/cache.go:142-179 | With a nondecreasing clock the captures of a run are those that the history of operations alone accepts |
| Captures.PendingIffAlive | internal/turnstate/cache.go:93-122 | With a nondecreasing clock a request is pending exactly when it was bound under two hours ago and since then was neither forgotten, replaced nor evicted as the oldest of a full table |
| CacheLog.HitIsLatestAndFresh | internal/turnstate/cache.go:125-138 | Whatever the clock does, a hit is the value of the key's last accepted store, under one hour old |
| CacheLog.RunFits | internal/turnstate/cache.go:194-224 | Entries and bindings never exceed their limits |
| CacheLog.EntriesAccounted | internal/turnstate/cache.go:142-179 | Every entry came from a response of a request whose binding was live, of this key and under two hours old, with a length that fits the plan supplied or bound |
| CacheLog.BindingIsMostRecent | internal/turnstate/cache.go:93-122 | The binding that counts is the request's most recent one, with nothing since that forgot or replaced it, and its plan is the last one noted for the request after it, or none |
| Interceptor.Plugin.InterceptRequestAfterAuth | internal/turnstate/interceptor.go:43-75 | Routes by format, key and management; a managed key gets the result of `Bind` and loses its passive binding, any other key is bound and looked up |
| Interceptor.Plugin.HandleRequestComplete | internal/turnstate/interceptor.go:77-83 | Both the passive binding and the observation are dropped |
| Interceptor.Plugin.InterceptResponse | internal/turnstate/interceptor.go:85-92 | Headers, then body, then passive capture |
| Interceptor.Plugin.InterceptStreamChunk | internal/turnstate/interceptor.go:94-104 | Headers and capture on the first chunk, the observer on the others |
| Interceptor.Plugin.Capture | internal/turnstate/interceptor.go:167-181 | Stores what the headers hold under the plan they name |
| Interceptor.OrderDoesNotMatter | internal/turnstate/interceptor.go:197-205 | In whatever order the spellings of a header come out of the map, the same single value or none is accepted |
| Interceptor.PlansAgree | internal/prewarm/config.go:269-304 | Engine and cache agree on plan names and state lengths, a state is valid for one plan only, and never the 312-byte one |
| Plans.FamilyMeans | internal/prewarm/config.go:269-278 | The length family of a plan name: the names of either family, up to case and the white space around them |
| Plans.PlanMatchesMeans | internal/prewarm/config.go:279-284 | A reported plan agrees with the expected one exactly when it is blank or names its family |
| Handling.EngineRuns | internal/turnstate/interceptor.go:43-75 | The engine side of every joint run of requests, engine and cache is a run of the protocol, so all that holds of runs holds there |
| Handling.CacheRuns | internal/turnstate/interceptor.go:43-75 | And its cache side is a run of the cache |
| Handling.PassedAlone | internal/turnstate/interceptor.go:64-74 | When nothing comes between its steps, a request whose key is not managed has the effect and the answer that the interceptor method is proved to have |
| Handling.BoundAlone | internal/turnstate/interceptor.go:52-63 | And so has one whose key is managed and planned, with what the whole of `Bind` hands out |
| Handling.DroppedAlone | internal/turnstate/interceptor.go:48-51 | A request without an ID or with an incomplete key loses its binding and gets nothing, as in the method |
| Exclusivity.ManagedIffTakenOver | internal/prewarm/discovery.go:97-109 | In every run, a key that is not managed is managed at a later state exactly when an open engine applied, in between, a valid snapshot that selects it or overflows the ownership set, for a configured model |
| Exclusivity.PassiveWhileManagedIff | internal/turnstate/interceptor.go:52-65 | In every joint run, a request is answered with a passive entry although its key is managed at that moment exactly when the key was not managed when it was checked, a snapshot that takes it over was applied in between, and the lookup hits |
| Exclusivity.ExplicitIsVerified | internal/turnstate/interceptor.go:52-65 | With explicit accounts a managed key is never answered with a passive entry |
| Exclusivity.OwnedIsNeverPassive | internal/turnstate/interceptor.go:52-63 | A request that is checked after a snapshot took its key over never gets a passive entry |
| Exclusivity.HitIsCertified | internal/prewarm/engine.go:513-552 | In every reachable state, whatever happened since the check and the describe, a hit of the locked section of `Bind` is an unexpired ticket of that key that was published with a certificate, in an open engine, for a request without a state of its own |
| Exclusivity.InjectedIsCertified | internal/turnstate/interceptor.go:52-62 | In every joint run, what a request is answered with as verified is such a ticket of its key |
| Exclusivity.InjectedIff | internal/turnstate/interceptor.go:52-62 | In every joint run, a request that reaches the locked section of `Bind` is answered with a ticket exactly under the conditions of `Hits.HitIff` |
| Exclusivity.PassiveIsCaptured | internal/turnstate/interceptor.go:64-74 | In every joint run, what a request is answered with as passive is the value of the last accepted capture for its key in that run, under an hour old |
| Gap.PassiveAlthoughManaged | internal/turnstate/interceptor.go:52-65 | A concrete joint run of eleven steps: a request is checked, a snapshot takes its key over, and its own binding and lookup then answer a managed key with a passive entry |
| GraphCheck.UnmarshalYAML | internal/prewarm/config_yaml.go:12-68 | Succeeds exactly when the root is a mapping or alias, every node reachable through aliases, sequences and merge keys is present, of an allowed kind and free of unknown fields, and the values decode |
| GraphCheck.Checker.Check | internal/prewarm/config_yaml.go:19-54 | Terminates on every finite graph, cycles included; success settles all nodes newly seen, failure exhibits an unsound reachable node |
| GraphCheck.SettledIsAllSound | internal/prewarm/config_yaml.go:23-26 | A set of nodes closed under references and sound node by node makes everything reachable sound |
| HostFlags.HostFlags | internal/probe/config_path.go:31-69 | The index-advancing loop reads as the recursive specification does, with its three errors |
| HostFlags.RoundTrip | internal/probe/config_path.go:29-69 | Any list of flags, printed with one or two dashes and inline or separate values, followed by an optional terminator and any tail, reads back as its last config path and whether its last home-jwt value is non-empty, or as the empty-path error when a config path is blank |
| HostFlags.ReadsOnlyFlags | internal/probe/config_path.go:29-69 | Conversely, arguments that are read successfully are such a list, printed, up to the end or a terminator |
| HostFlags.DashesAsValue | internal/probe/config_path.go:49-55 | A `--` consumed as a value does not end the flags |
| HostFlags.HostIsSound | internal/probe/config_path.go:40-43 | The flag table meets what the grammar needs of it |
| Lifecycle.OneEngineAtATime | cmd/plugin/main.go:302-335 | Over all interleavings the goroutines of two engines are never alive at once, and a callback of a goroutine keeps its engine alive |
| Lifecycle.HostMovesQuietly | cmd/plugin/main.go:221-226 | The stored Host is set or cleared only with no callback in flight, and a callback in flight has the Host that is stored |
| Lifecycle.OpenIffHost | cmd/plugin/main.go:172-175 | Outside the write-locked gate, callbacks are open exactly when a Host is stored |
| Lifecycle.RefusalsKeepThePlugin | cmd/plugin/main.go:256-309 | Over any stretch of a run in which every configuration is refused, for whatever reason, the published plugin stays, its engine is not closed, and none of its goroutines goes |
| Lifecycle.StoppedUntilInit | cmd/plugin/main.go:259-261 | After a shutdown no configuration is accepted until the next init |
| Lifecycle.ShutdownLeavesNothing | cmd/plugin/main.go:216-227 | Once a shutdown has run its course there is no goroutine, no callback, no Host, and an inert plugin |
| Lifecycle.LaunchIsAlone | cmd/plugin/main.go:306-307 | A new engine starts only when no goroutine and no worker callback of an earlier one is left |
| PluginRuntime.Runtime.Configure | cmd/plugin/main.go:256-309 | A refused request keeps plugin and engine; an accepted one publishes a fresh plugin whose engine starts on the shared budget, and closes the engine before it |
| PluginRuntime.Runtime.Shutdown | cmd/plugin/main.go:216-227 | Stops, publishes an inert plugin, closes the engine, and clears flag and Host |

## Left out

- Host traffic: HTTP/2, TLS, SOCKS, files and credentials. Describe, Probe and DiscoverAccounts return anything.
- JSON and YAML decoding: decoding one event is a parameter of the parser, decoding the configuration values is a parameter of `UnmarshalYAML`. A mapping node has a value for every key, as the YAML parser delivers it.
- `collect` as one method: other steps come between its regions, so it is a program counter in `Protocol.Advance`, over the region methods of the class.
- Receiving from the job channel is a step of the protocol and has no method; the queue is a sequence with a capacity. The unused `proxyIndex` of a job is not kept.
- Observers, records and observations are values held in maps, not objects with identity; the source shares no observer between observations. The observer inside an engine is `Completions.Parser`, the value that the `Completion` object is proved to hold.
- Repeated clock readings inside one locked region are one reading, and the method `Interceptor.Plugin.InterceptRequestAfterAuth` has one for the whole request; in `Handling` every step has its own.
- Concurrency of goroutines in the classes: their methods run whole. `Protocol`, `Handling` and `Lifecycle` have the interleavings.
- Map order: which fresh epoch each renewed record gets depends on the order of the maps, so `EngineState.Applied` is a relation.
- CacheLog.LookupRefinesLog: assumes distinct capture times, because its count of other keys ignores ties; `Evictions.LookupByHistory` holds without it, and `CacheLog.HitIsLatestAndFresh` with any clock.
- Theorems.ExpiriesNeverRegress: assumes that clock readings do not go backwards, as every run does.
- Interceptor.Plugin.Capture: when a response spells the plan header in several ways, which spelling counts is left open, as the order of a Go map is.
- Text: strings are sequences of characters, one per byte, with ASCII case folding and white space; Unicode folding is not modelled.
- Wrap-around of the 64-bit epoch and version counters.
- The refresh throttle of discovery (a minute, or ten seconds after a failure), the start delay, timers, context deadlines and the interval between attempts: time passes as the environment chooses.
- Web-socket events, log lines, account labels, metrics of the proxy nodes beyond success and failure counts.
- Configuration ranges, defaults, email selectors' syntax and proxy strings: `PrewarmConfig.Config.Valid` has the facts that the engine relies on, and a configuration that fails validation is a request that is refused.
- `Lifecycle` and `PluginRuntime` leave out buffers, envelopes and the C interface; the Host is a number.
- Liveness: no claim that a worker, a join or a drain ever finishes.
