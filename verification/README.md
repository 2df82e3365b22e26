# ethp2p broadcast: a verified model

This project models the erasure-coded broadcast engine of ethp2p and the data structures it rests on, and proves what they
keep over whole runs. `dafny verify dfyconfig.toml` checks everything.

The engine is a state machine over its tables: each network event, publish, subscribe or dial is one step. A history log
records what it sends, creates, delivers and disposes. Clock readings, tie-break priorities and the result of every
`net.send` are arbitrary inputs of the step. `Engine.dfy` holds the step functions, `EngineSteps.dfy` to `EngineFacts.dfy` an
induction principle over primitive table updates, and the `Engine*` files after them one theorem family each. `Network.dfy`
runs any number of engines against a network that loses, delays, repeats, reorders and injects.

Objects that the source updates in place are classes proved against those functions: `EngineState`, `SessionState`,
`RsStrategy`, `EmitPlanner` (the lazily invalidated heap), `BitMap`, `SimState`, `FaultPlan` and the stream readers.

| files | subject |
|---|---|
| `Basics`, `Bits`, `BitMap` | ids, ordered iteration, the bit-packed havelist |
| `Planner`, `PlannerHeap` | the emit planner as an argmin, and the heap that computes it |
| `Coding` | Reed-Solomon encode, decode, verification over a library given by hypotheses |
| `Strategy`, `StrategyState`, `Polling`, `StrategyRuns`, `StrategySpent` | the strategy, its object, its polls, its runs, its budget |
| `Forwarding`, `Announcing` | what a poll must send, and when and what it announces |
| `Session`, `SessionState`, `Arrivals` | the session state machine and chunk arrival |
| `Engine`, `EngineState` | the engine's step functions and its object |
| `EngineSteps`, `EngineBase`, `EngineRuns`, `EngineFacts` | induction over updates, the table invariant |
| `EngineOpens`, `EngineRetired`, `EngineRest`, `EngineTimes`, `EngineLives` | run theorems over the log and the clock |
| `EngineStrategies`, `EngineSettlement`, `EngineScript`, `EngineResults` | budgets, settlement, exactly when a drain strands |
| `EngineOrigin`, `EngineArrivals`, `EngineWaste`, `EngineStarvation` | completeness, arrival order, no wasted sends, starved relays |
| `EngineLate` | outcomes after settlement: which stay awaited, and why |
| `EngineSweeps` | what the sweep takes and what it spares |
| `EngineJoins`, `EngineMembers`, `EngineTells` | joining, leaving, publishing; how far channel drains get and what they achieve |
| `EngineSignals`, `EngineForwards` | deliveries and their signals; a relay that forwards |
| `OneSubscriber`, `EnginePublication`, `EngineWitness` | a new origin with its only subscriber, and runs that reach the corner cases |
| `Network`, `Premises` | N engines, end-to-end integrity; a library that satisfies its hypotheses |
| `Faults`, `Sim`, `SimTimes`, `SimState` | the discrete-event simulator |
| `Wire`, `WireReader` | selector, frames and CHUNK streams |

## Premises

- A publisher supplies a strategy as its constructor made it: the run theorems assume of it only that nothing is attached,
  allocated or in flight, and where origins matter that it holds every shard; the witness runs publish what `NewOrigin` returns
  for a payload.
- Budgets and settlement assume that a reported send outcome names the peer the send went to. The engine trusts the report
  (`engine.rs:513-523`); the source only asserts it in debug builds.
- The hash has a fixed length. Where payloads are identified, no other string has the hash of a published shard; a hash of
  fixed length cannot be injective on all strings, so that is what is assumed.
- The erasure code recovers the data shards from any k shards of a codeword; the protobuf decoder inverts the encoder.
  `PremisesHaveAModel` exhibits a library and a publication that satisfy all of these at once.
- Spacing and ages assume a clock that does not go back.

## Where the code differs from its comments or from a plausible law

- The planner keeps at least one live heap entry per shard, not exactly one (`planner.rs:72-77`): `RefundDuplicates` leaves two
  equal ones. A planner that is never refunded keeps exactly one, and an allocation leaves exactly one if and only if the heap
  held no entry at the new count; both are in the contract of `EmitPlanner.Allocate`. The argmin holds either way.
- A relay's planner does allocate shards the relay does not hold, against the comment at `state.rs:292-294`; the allocation
  is cancelled without a refund. `PollBurnsNothingIff` says exactly when that happens, `EngineStarves` is a run that spends
  a relay's whole forward budget that way, `SpentForever` the law per shard; an origin never does it (`OriginBurnsNothing`).
- A drain that returns early on a refused control send strands the chunks already polled: they stay in flight and no outcome
  can settle them until the peer leaves or the session ends. `RoundStrandsRest` says exactly which chunks, `DrainCoversIff`
  exactly when, over the positions of the drain's own sends, `RefusedOpenStrands` a run from a new engine.
- A late outcome is not inert, even within one life of a session. It never settles anything again, but only a disconnect
  purges pending sends: after an unsubscription, a reconstruction report or a close the outcome is still awaited, and taking it
  drains the session (`LateOutcomeOnlyDrains`, `LeftAwaitedIff`, `AwaitedWithoutFlight`). `LateOutcomeSends` is a run in which it
  sends another peer's chunk. Across lives it can even settle the wrong flight: handles restart at zero in the next life of
  the key and `publish` checks no tombstone (`OutcomeCrossesLives`). What is ignored is exactly what is not awaited
  (`OutcomeIgnoredIff`), which the caller can see before it reports.
- A first routing update is merged without a size check. `AckMarksWhenHavelistFits` gives the exact condition under which an
  acknowledgement is remembered, `TooSmallHavelistResends` a run that sends an acknowledged shard again. The engine ignores
  inbound routing updates, so at engine level no such premise is needed (`NoWastedSends`).
- A read into an empty buffer while payload bytes are owed reports a truncated payload even when nothing is missing
  (`ChunkPayloadReader.PollRead`).
- Encoding with both `chunk_len` and `data_shards` zero divides by zero (`encode.rs:108`); the public fields of the
  configuration allow it. `Encode`, `NewOrigin` and `MakeOrigin` exclude that configuration.

## Model

| member | source | states |
|---|---|---|
| `Network.EndToEndIntegrity` | crates/ethp2p-broadcast/src/engine.rs:387-456 | For any number of engines and any run with losses, delays, duplicates, reordering and injected chunk bytes, if opens are only ones engines sent and publishers follow one book: every preamble held or sent is the published one, every chunk stored or forwarded hashes to its preamble entry, every delivered payload has the published length and hash |
| `Network.DeliveredIsPublished` | crates/ethp2p-broadcast/src/engine.rs:667-697 | If in addition no other string has the hash of a published shard: every delivered payload is the published payload, every forwarded chunk is the published shard of its index, and no session of that message ever fails |
| `Network.HashedAgrees` | crates/ethp2p-broadcast/src/strategy/rs/verify.rs:103-124 | Chunks that hash to their entries are the published shards when those shards are unforged |
| `Network.ReconstructTrue` | crates/ethp2p-broadcast/src/strategy/rs/state.rs:129-137 | Decoding with enough chunks that hash to their entries succeeds and gives the published payload (unforged shards); whatever it gives has the published length and hash |
| `Network.PairsGenuine` | crates/ethp2p-broadcast/src/strategy/rs/state.rs:129-137 | The pairs handed to the decoder have distinct indices in range, are genuine, and are as many as the accepted chunks |
| `EngineRuns.StepKeeps` | crates/ethp2p-broadcast/src/engine.rs:337-499 | Induction principle of the engine: an invariant kept by every permitted table update is kept by every whole step, for every event, clock reading and pattern of send results |
| `EngineRuns.RunKeeps` | crates/ethp2p-broadcast/src/engine.rs:308-499 | Such an invariant, kept by every permitted update of every step, holds after every run of publishes, subscriptions, dials and events |
| `EngineRuns.TablesAgree` | crates/ethp2p-broadcast/src/engine.rs:308-499 | In every reachable state: metadata and preambles have exactly the live sessions as keys, opened and pending entries belong to live sessions and pending ones to the peer of their dispatch, attached and in-flight peers subscribe, terminal time is set exactly in terminal phases, a live relay is not tombstoned, parked buffers hold 1 to 32 chunks |
| `EngineRest.RelaysRest` | crates/ethp2p-broadcast/src/engine.rs:387-456 | Between steps no session is decoding, and a key with parked chunks or a tombstone has no live relay session |
| `EngineRuns.DrainFrame` | crates/ethp2p-broadcast/src/engine.rs:567-665 | A drain changes no phase, chunk set, attachment, preamble, metadata, tombstone, parked chunk or delivery |
| `EngineOpens.OpenBeforeData` | crates/ethp2p-broadcast/src/engine.rs:532-633 | In the log of any run, every chunk or routing update for a session to a peer is preceded by a successful open to that peer with no disconnect of the peer and no disposal of the session in between |
| `EngineOpens.OpensAreCutApart` | crates/ethp2p-broadcast/src/engine.rs:532-554 | Between two successful opens of a session to a peer lies a disconnect of the peer or a disposal of the session: at most one open per life, peer and connection |
| `EngineRetired.NoChunkAfterDone` | crates/ethp2p-broadcast/src/engine.rs:488-497 | After a peer reported a session reconstructed, no chunk of it is handed to the transport for that peer until the peer joins the channel anew or the session is disposed |
| `EngineTimes.DeliveriesAreSpaced` | crates/ethp2p-broadcast/src/engine.rs:667-847 | On every run with a nondecreasing clock, two deliveries for the same message are more than the tombstone lifetime apart |
| `EngineLives.OneDeliveryPerLife` | crates/ethp2p-broadcast/src/session.rs:154-191 | Between two deliveries of the same message its session is disposed: one session life makes at most one delivery |
| `EngineTimes.AgesAreBounded` | crates/ethp2p-broadcast/src/engine.rs:795-847 | After every handled event, however long the gap before it, no session, terminal session, tombstone or parked chunk is older than its lifetime plus one cleanup interval |
| `EngineSweeps.DisposedExactlyWhenDue` | crates/ethp2p-broadcast/src/engine.rs:795-847 | For every sweep in the log of any run: a key is disposed if and only if its present session was created more than the active lifetime before, or ended its decoding more than the linger time before; sessions and times are read off the log |
| `EngineSweeps.SessionsAreBorn` | crates/ethp2p-broadcast/src/engine.rs:308-417 | In every reachable state the sessions are exactly those created and not disposed since |
| `EngineSweeps.SweepsAreSpaced` | crates/ethp2p-broadcast/src/engine.rs:795-803 | On every run, whatever the clock, a sweep comes at least a cleanup interval after every earlier one |
| `EngineSweeps.ParkedChunkSurvives` | crates/ethp2p-broadcast/src/engine.rs:720-764 | A parked chunk within its lifetime survives every step that does not open its session, push it out of a full buffer or dispose its key |
| `EngineSweeps.TombstoneStands` | crates/ethp2p-broadcast/src/engine.rs:822-847 | A tombstone stands unchanged for its whole lifetime on every run, unless another session of the key is disposed meanwhile |
| `EngineSweeps.DisposedStaysBarred` | crates/ethp2p-broadcast/src/engine.rs:387-440 | From the sweep that disposed a key, for the lifetime of its tombstone and whatever opens and chunks arrive, no session of it is live and no chunk of it is parked unless it is published here again |
| `EngineStrategies.SessionsConserveBudget` | crates/ethp2p-broadcast/src/strategy/rs/state.rs:246-340 | In every session of every reachable engine: handles and planner in-flight pairs correspond one to one, allocations are sends plus flights plus burned ones, a relay's sends stay within its cap |
| `EngineResults.FlightsArePending` | crates/ethp2p-broadcast/src/engine.rs:619-653 | Between steps of a run in which every control send succeeded, every handle in flight has a pending entry for the peer its chunk went to |
| `EngineResults.OutcomeTaken` | crates/ethp2p-broadcast/src/engine.rs:505-527 | Taking a reported outcome leaves its handle no longer awaited, drain included |
| `EngineResults.UnawaitedIsIgnored` | crates/ethp2p-broadcast/src/engine.rs:505-527 | An outcome that is not awaited stays unawaited for the rest of the session's life: reporting it then changes nothing at all |
| `EngineResults.OutcomeIgnoredIff` | crates/ethp2p-broadcast/src/engine.rs:505-527 | In every reachable state, over all lives of the key: handling a reported outcome leaves the engine unchanged if and only if no outcome is awaited under that key and handle |
| `EngineWitness.OutcomeCrossesLives` | crates/ethp2p-broadcast/src/engine.rs:308-333 | A run from a new engine that publishes what the constructor made for a payload: a chunk of the first life is pending under handle 0, the sweep disposes the session, the key is published again, and the outcome reported for the first life's handle settles the second life's flight and counts as its send |
| `EngineResults.SettledOutcomeOnlyDrains` | crates/ethp2p-broadcast/src/engine.rs:505-527 | An outcome of a handle that is not in flight, whatever peer and result it names: the event changes nothing if the handle is not awaited, and otherwise is exactly one drain of the session with the pending entry removed |
| `EngineResults.LateOutcomeOnlyDrains` | crates/ethp2p-broadcast/src/engine.rs:505-527 | Once a handle is settled by an outcome, a refusal or a departure, that holds for the rest of the session's life, even after its peer comes back: a later outcome settles nothing, and its only effect is a drain while it is still awaited |
| `EngineLate.LeftAwaitedIff` | crates/ethp2p-broadcast/src/engine.rs:382-527 | For every table update of every step that settles a flight: its outcome stays awaited if and only if it was awaited and the update is an unsubscription, a reconstruction report or a close; outcomes, refusals and disconnects leave nothing awaited |
| `EngineLate.DepartureEvents` | crates/ethp2p-broadcast/src/engine.rs:382-497 | The four events by which the peer of an awaited flight departs all settle it; all but the disconnect leave its outcome awaited |
| `EngineLate.AwaitedWithoutFlight` | crates/ethp2p-broadcast/src/engine.rs:382-653 | In every reachable state, an outcome that is awaited without a flight is of a chunk that was accepted for a peer which later unsubscribed, reported the session reconstructed or closed it |
| `EngineWitness.LateOutcomeSends` | crates/ethp2p-broadcast/src/engine.rs:505-527 | A run from a new engine within one life: the first subscriber leaves with its chunk under handle 0 pending, the chunk to a second subscriber is refused, and the first one's late outcome, whatever it says, sends the second a chunk |
| `EngineScript.RoundStrandsRest` | crates/ethp2p-broadcast/src/engine.rs:606-653 | The chunks of its poll that a round leaves in flight with no outcome awaited are exactly those from some position on; there are any if and only if the poll has chunks and one of the round's opens or routing updates is refused |
| `EngineScript.RoundSendsScript` | crates/ethp2p-broadcast/src/engine.rs:594-653 | A drain round makes exactly the sends of its script in order, each with its result, up to the first refused open or routing update |
| `EngineScript.RoundFailsIff` | crates/ethp2p-broadcast/src/engine.rs:606-633 | The sends of a drain round are known beforehand; the round ends early if and only if the transport refuses one of the opens or routing updates among them, at its position |
| `EngineScript.RoundCoversIff` | crates/ethp2p-broadcast/src/engine.rs:577-653 | A round of a session whose flights are all awaited keeps them so if and only if its poll has no chunks or none of its opens and routing updates is refused: every early return, in the routing loop or at any chunk, strands exactly when chunks were polled |
| `EngineScript.DrainCoversIff` | crates/ethp2p-broadcast/src/engine.rs:567-665 | The same for a whole drain: all flights stay awaited if and only if no round of it polls chunks and has a control send refused |
| `EngineScript.DrainFailsIff` | crates/ethp2p-broadcast/src/engine.rs:567-665 | A drain ends in failure if and only if the transport refuses an open or a routing update in one of its rounds |
| `EngineWitness.RefusedOpenStrands` | crates/ethp2p-broadcast/src/engine.rs:374-381 | A run from a new engine that strands: a payload's origin published without subscribers, then a subscription whose open is refused, leaves the chunk in flight with no outcome awaited |
| `EngineSettlement.DrainGrows` | crates/ethp2p-broadcast/src/engine.rs:567-665 | A drain leaves every flight of a covered session pending unless a control send failed; it touches no other session's flights and makes pending only newly issued handles |
| `EngineOrigin.OriginDrainServes` | crates/ethp2p-broadcast/src/engine.rs:577-592 | In every reachable state, whatever outcomes were reported for which peers: a drain of an origin session that ends for lack of work leaves every shard in flight to, or believed held by, every attached peer; with a transport that accepts every send it always ends that way |
| `EngineJoins.ChannelDrainStops` | crates/ethp2p-broadcast/src/engine.rs:556-565 | The drain of a channel drains its sessions in order and stops before one only if an open or a routing update was refused in the drain of the session before it |
| `EngineJoins.SubscriptionServes` | crates/ethp2p-broadcast/src/engine.rs:374-381 | In every reachable state, with an accepting transport: after a subscription every origin session of the channel has every shard in flight to, or believed held by, every attached peer |
| `EngineJoins.HandshakeServes` | crates/ethp2p-broadcast/src/engine.rs:351-368 | The same after a handshake, for every hosted channel it advertises |
| `EngineJoins.HandshakeJoins` | crates/ethp2p-broadcast/src/engine.rs:351-373 | A handshake of the right version connects the peer, subscribes it to exactly the advertised hosted channels, attaches it to exactly the sessions of those it newly joins and leaves other channels' sessions alone; any other version disconnects it and does nothing else |
| `EngineJoins.SubscriptionJoins` | crates/ethp2p-broadcast/src/engine.rs:374-381 | A subscription joins the peer to exactly that channel, if it is hosted |
| `EngineJoins.DrainSendsPoll` | crates/ethp2p-broadcast/src/engine.rs:619-653 | With an accepting transport a drain sends every chunk that its first poll hands out, in either mode |
| `EngineJoins.DrainSendsUpdate` | crates/ethp2p-broadcast/src/engine.rs:594-616 | With an accepting transport a drain sends a due routing update to every subscriber of the channel |
| `EngineTells.NothingLeftToAnnounce` | crates/ethp2p-broadcast/src/engine.rs:387-527 | After an accepted open, a chunk for a live session or an awaited outcome, with an accepting transport, the session's next poll emits no routing update |
| `EngineMembers.SubscribersAreMembers` | crates/ethp2p-broadcast/src/engine.rs:351-381 | In every reachable state the subscribers of a channel are exactly the peers that joined it and have neither left it nor disconnected since |
| `EngineMembers.ChunksGoToMembers` | crates/ethp2p-broadcast/src/engine.rs:619-653 | In the log of any run every chunk goes to a peer that subscribes to its channel at that moment |
| `EngineMembers.DeparturesLeave` | crates/ethp2p-broadcast/src/engine.rs:382-497 | An unsubscription takes the peer out of that channel and its sessions, a disconnect out of everything, a reconstruction report or a close out of that session only; nothing else about sessions and subscribers changes |
| `EngineMembers.PublishServes` | crates/ethp2p-broadcast/src/engine.rs:308-333 | In every reachable state, with an accepting transport: a publication is attached and opened to exactly the channel's subscribers and every shard is in flight to, or believed held by, each of them; no other session changes |
| `EngineMembers.PublishOpensFirst` | crates/ethp2p-broadcast/src/engine.rs:308-333 | A publication opens to the subscribers in order before it sends anything else; if an open is refused it ends there with nothing in flight |
| `EngineMembers.SubscribingAnnounces` | crates/ethp2p-broadcast/src/engine.rs:259-277 | Subscribing locally hosts the channel once and tells the connected peers in order, all of them or up to the first refused send |
| `EngineMembers.RegistersOnce` | crates/ethp2p-broadcast/src/engine.rs:288-300 | Registering a peer connects it and sends exactly one handshake naming exactly the hosted channels, none if it was connected before |
| `EngineMembers.OpenStartsRelay` | crates/ethp2p-broadcast/src/engine.rs:387-417 | An open for a hosted channel and a key neither tombstoned nor known, with a well-shaped preamble, starts a relay of that preamble that serves exactly the subscribers; every other open changes nothing |
| `EngineForwards.RelayForwards` | crates/ethp2p-broadcast/src/engine.rs:387-456 | A run from a new engine in which a relay forwards: a valid open, a valid chunk of the shard that comes first, a subscriber, and the log holds that chunk to the subscriber |
| `EngineSignals.DeliveriesAreSignalled` | crates/ethp2p-broadcast/src/engine.rs:667-697 | In the log of any run every delivery is followed directly by the send of its reconstruction signal, and no such send occurs otherwise |
| `Engines.RoundLowersMeasure` | crates/ethp2p-broadcast/src/engine.rs:577-665 | Every drain iteration that goes on lowers: routing update due, plus the shards neither in flight to nor believed held by each attached peer; so the drain terminates for every pattern of send results |
| `EngineArrivals.OpenOrderIsImmaterial` | crates/ethp2p-broadcast/src/engine.rs:720-764 | With at most 32 chunks of the message (valid or not) before the open, any events about other messages and peers in between and no sweep, parking and replaying gives the same phase, preamble, accepted chunks and delivered payloads as receiving the open first |
| `EngineArrivals.ChunkOrderIsImmaterial` | crates/ethp2p-broadcast/src/engine.rs:418-456 | Whether a relay session completes is unchanged by permuting the chunks it receives |
| `Arrivals.RelayCompletesIff` | crates/ethp2p-broadcast/src/session.rs:154-173 | A relay session completes if and only if valid chunks for at least max(k, 1) distinct indices arrive |
| `Arrivals.EagerIsLazy` | crates/ethp2p-broadcast/src/session.rs:154-191 | Decoding as soon as there are enough chunks and decoding after the last chunk give the same session |
| `EngineStates.EngineState.EnsureSessionOpen` | crates/ethp2p-broadcast/src/engine.rs:532-554 | Sends an open unless the session is already open to the peer or has no preamble; a refused send opens nothing |
| `EngineStates.EngineState.DrainSession` | crates/ethp2p-broadcast/src/engine.rs:567-665 | The drain loop computes the recursive drain, with its send log, pending entries and end reason, and terminates |
| `EngineStates.EngineState.SendChunks` | crates/ethp2p-broadcast/src/engine.rs:619-653 | Each chunk becomes pending or is refunded; an open that fails ends the call with the rest unsent |
| `EngineStates.EngineState.DrainWholeChannel` | crates/ethp2p-broadcast/src/engine.rs:556-565 | Drains the channel's sessions in order up to the first failed control send |
| `EngineStates.EngineState.FinishSession` | crates/ethp2p-broadcast/src/engine.rs:667-697 | Decodes, stamps the terminal time once, delivers and signals on success |
| `EngineStates.EngineState.ParkChunk` | crates/ethp2p-broadcast/src/engine.rs:720-740 | Appends to the buffer, dropping the oldest when 32 are held |
| `EngineStates.EngineState.ReplayParked` | crates/ethp2p-broadcast/src/engine.rs:744-764 | Takes the parked chunks in order, drains, and delivers once if any completed the session |
| `EngineStates.EngineState.OpenSession` | crates/ethp2p-broadcast/src/engine.rs:387-417 | Ignores tombstoned, known and invalid opens; otherwise creates the relay, drains and replays |
| `EngineStates.EngineState.ReceiveChunk` | crates/ethp2p-broadcast/src/engine.rs:418-456 | Ignores tombstoned keys, parks unknown ones, otherwise takes, drains and delivers on completion |
| `EngineStates.EngineState.ResolveChunkSend` | crates/ethp2p-broadcast/src/engine.rs:505-527 | Settles exactly an awaited outcome and drains again |
| `EngineStates.EngineState.DropPeer` | crates/ethp2p-broadcast/src/engine.rs:464-475 | Forgets the peer's pending sends and opens and detaches it from the sessions of every channel it was in |
| `EngineStates.EngineState.MaybeRunCleanup` | crates/ethp2p-broadcast/src/engine.rs:795-847 | Disposes exactly the expired sessions with tombstones in their place, then drops old tombstones and parked chunks |
| `EngineStates.EngineState.RunOneStep` | crates/ethp2p-broadcast/src/engine.rs:337-499 | One event and the cleanup check compute the step function about which the run theorems speak |
| `EngineStates.EngineState.PublishMessage` | crates/ethp2p-broadcast/src/engine.rs:308-333 | Refuses an unknown channel or a live key; otherwise creates the origin, opens it to the subscribers and drains |
| `EngineStates.EngineState.SubscribeLocally` | crates/ethp2p-broadcast/src/engine.rs:259-277 | Hosts the channel once and announces it to connected peers up to the first refused send |
| `EngineStates.EngineState.RegisterPeer` | crates/ethp2p-broadcast/src/engine.rs:288-300 | One handshake per connection |
| `EngineStates.AttachEach` | crates/ethp2p-broadcast/src/channel.rs:104-110 | Attaches the peer to exactly the sessions of the channel |
| `EngineStates.DetachEach` | crates/ethp2p-broadcast/src/channel.rs:114-120 | Detaches the peer from exactly the sessions of the channel |
| `SessionStates.SessionState.TakeChunk` | crates/ethp2p-broadcast/src/session.rs:154-173 | Takes chunks only while consuming, moves to decoding exactly on an accepted completing chunk |
| `SessionStates.SessionState.DecodeAndFinish` | crates/ethp2p-broadcast/src/session.rs:180-191 | Only from decoding, to reconstructed with the payload or to failed |
| `SessionStates.SessionState.Poll` | crates/ethp2p-broadcast/src/session.rs:194-201 | Routing update first, then chunk dispatches |
| `StrategyStates.RsStrategy.MakeOrigin` | crates/ethp2p-broadcast/src/strategy/rs/state.rs:58-68 | Encodes up front; the new strategy holds every shard and has no cap |
| `StrategyStates.RsStrategy.MakeRelay` | crates/ethp2p-broadcast/src/strategy/rs/state.rs:80-96 | Refuses an invalid preamble; otherwise an empty strategy with the forward cap |
| `StrategyStates.RsStrategy.Take` | crates/ethp2p-broadcast/src/strategy/rs/state.rs:208-240 | Out of range, duplicate, accepted and invalid chunks, with the completion flag |
| `StrategyStates.RsStrategy.Detach` | crates/ethp2p-broadcast/src/strategy/rs/state.rs:246-256 | Forgets the peer's handles and planner state and refunds its flights |
| `StrategyStates.RsStrategy.Route` | crates/ethp2p-broadcast/src/strategy/rs/state.rs:258-279 | Merges the havelist and lists in order exactly the sends it makes redundant |
| `StrategyStates.RsStrategy.PollOne` | crates/ethp2p-broadcast/src/strategy/rs/state.rs:285-306 | Sends the planner's choice under a new handle, or cancels it unrefunded when the shard is not held |
| `StrategyStates.RsStrategy.Poll` | crates/ethp2p-broadcast/src/strategy/rs/state.rs:281-309 | One attempt per attached peer in order |
| `StrategyStates.RsStrategy.LocalBitmap` | crates/ethp2p-broadcast/src/strategy/rs/state.rs:165-173 | The bitmap object holds exactly the accepted indices |
| `StrategyStates.RsStrategy.PollRoute` | crates/ethp2p-broadcast/src/strategy/rs/state.rs:311-325 | Emits the local havelist exactly when enabled, past the threshold and changed |
| `StrategyStates.RsStrategy.Settle` | crates/ethp2p-broadcast/src/strategy/rs/state.rs:327-340 | Settles a known handle once: counts a success, cancels and refunds a failure |
| `StrategyStates.RsStrategy.Rebuild` | crates/ethp2p-broadcast/src/strategy/rs/state.rs:129-137 | Decodes the accepted chunks in index order |
| `StrategyRuns.BudgetConserved` | crates/ethp2p-broadcast/src/strategy/rs/state.rs:246-340 | Over every run of a new strategy: allocation = successful sends + peers in flight + burned, hence a relay's successful sends per shard never exceed the forward multiplier |
| `StrategyRuns.SettledForGood` | crates/ethp2p-broadcast/src/strategy/rs/state.rs:327-340 | A settled handle is never in flight again and a late or repeated result leaves the strategy as it is |
| `StrategyRuns.OutcomeSettles` | crates/ethp2p-broadcast/src/strategy/rs/state.rs:246-340 | An acknowledgement, a failure and a departure each settle the handle |
| `EngineWaste.NoWastedSends` | crates/ethp2p-broadcast/src/engine.rs:505-653 | Over the log of any run: between two accepted sends of the same shard of a session to the same peer lies a failed outcome of that shard, a departure of the peer or the disposal of the session |
| `StrategyRuns.NoShardSentTwice` | crates/ethp2p-broadcast/src/strategy/rs/state.rs:281-340 | With routing updates of the right size, an acknowledged shard is not sent to that peer again while it stays attached |
| `StrategyRuns.NeverSentAgain` | crates/ethp2p-broadcast/src/strategy/rs/planner.rs:114-186 | A shard a peer is believed to hold is not sent to it while it stays attached |
| `StrategyRuns.AckMarksWhenHavelistFits` | crates/ethp2p-broadcast/src/strategy/rs/planner.rs:190-199 | An acknowledgement marks the shard as held if and only if the peer's havelist is absent or large enough |
| `OneSubscriber.TooSmallHavelistResends` | crates/ethp2p-broadcast/src/strategy/rs/state.rs:258-266 | A run from the origin that the constructor makes for a payload: a first routing update of size 0, merged unchecked, makes one of the next n polls send a shard again that the peer has acknowledged |
| `StrategyRuns.UndersizedHavelistResends` | crates/ethp2p-broadcast/src/strategy/rs/state.rs:258-266 | With a too small havelist an acknowledged shard stays eligible, and an origin that holds every shard sends it again within as many polls as the peer has free shards |
| `StrategyRuns.RoutingUpdateLearns` | crates/ethp2p-broadcast/src/strategy/rs/state.rs:258-279 | A routing update of the right size teaches exactly its bits about exactly that peer and names exactly the sends it makes redundant; one of another size teaches nothing once a havelist is known |
| `StrategyRuns.ExhaustedForever` | crates/ethp2p-broadcast/src/strategy/rs/state.rs:281-309 | A relay with nothing in flight and every shard at its cap never forwards again, whatever it receives and whoever comes or goes |
| `StrategyRuns.RelayStarves` | crates/ethp2p-broadcast/src/strategy/rs/state.rs:289-297 | A new relay strategy with any subscribers, polled n times cap before its first chunk, has burned its whole budget and never forwards a chunk |
| `StrategySpent.PollBurnsNothingIff` | crates/ethp2p-broadcast/src/strategy/rs/state.rs:281-309 | A poll burns no allocation if and only if, for each attached peer in turn, the planner's choice is none or a shard that is held |
| `StrategySpent.SpentForever` | crates/ethp2p-broadcast/src/strategy/rs/state.rs:281-340 | Once a shard's successful sends and burned allocations reach the relay's cap, the shard is never dispatched again, on any run |
| `EngineStarvation.EngineStarves` | crates/ethp2p-broadcast/src/engine.rs:418-456 | Runs from a new engine that starve a relay: one subscriber, an accepted open, then k chunks with an index out of range starve it if and only if 1 + k reaches n times the forward multiplier |
| `EngineStarvation.StarvedNeverForwards` | crates/ethp2p-broadcast/src/engine.rs:567-665 | In any run from a starved session no chunk of it is handed to the transport until it is disposed, whatever it receives and whoever comes or goes |
| `StrategyRuns.OriginBurnsNothing` | crates/ethp2p-broadcast/src/strategy/rs/state.rs:289-297 | A strategy that holds every shard never burns an allocation |
| `Polling.PollFromEmits` | crates/ethp2p-broadcast/src/strategy/rs/state.rs:281-309 | A poll issues consecutive new handles, each for a held shard of the named index, and keeps the flights there were |
| `Polling.PollLowersMeasure` | crates/ethp2p-broadcast/src/strategy/rs/state.rs:281-325 | A poll uses up exactly one unit of the drain measure per dispatch and one for a routing update, burned allocations included |
| `Polling.QuietPollServes` | crates/ethp2p-broadcast/src/strategy/rs/state.rs:281-309 | A poll of a full origin without dispatches shows every shard in flight to or believed held by every polled peer |
| `Polling.FreeShardIsSent` | crates/ethp2p-broadcast/src/strategy/rs/state.rs:281-309 | An origin that holds every shard sends an attached peer each shard it neither has nor is being sent, within as many polls as there are such shards, whoever else is attached |
| `Forwarding.TurnServes` | crates/ethp2p-broadcast/src/strategy/rs/state.rs:281-309 | In either mode, peer by peer: at its turn a peer is sent exactly its best eligible shard, whole and under the next handle, if that is held, and nothing if it is not or if there is none |
| `Forwarding.HeldShardIsForwarded` | crates/ethp2p-broadcast/src/strategy/rs/state.rs:281-309 | A relay's held shard that an attached peer neither has nor is being sent is sent to it, or its allocations reach the cap, within as many polls as the cap still allows allocations for the peer |
| `Announcing.AnnouncesWhatIsNew` | crates/ethp2p-broadcast/src/strategy/rs/state.rs:311-325 | After every run of a new strategy the next poll emits a routing update if and only if updates are enabled, the threshold's percentage of shards is held and the held shards are not those announced last; it names exactly the shards held |
| `Strategies.DetachPeerInv` | crates/ethp2p-broadcast/src/strategy/rs/state.rs:246-256 | Departure keeps the handle correspondence, the budget equation and the cap |
| `Strategies.ChunkSentInv` | crates/ethp2p-broadcast/src/strategy/rs/state.rs:327-340 | An outcome that names the dispatch's peer keeps the handle correspondence, the budget equation and the cap |
| `Strategies.PollChunksInv` | crates/ethp2p-broadcast/src/strategy/rs/state.rs:281-309 | A poll keeps the handle correspondence, the budget equation and the cap |
| `Strategies.RoutingUpdateInv` | crates/ethp2p-broadcast/src/strategy/rs/state.rs:258-279 | A routing update keeps the handle correspondence, the budget equation and the cap |
| `Strategies.TakeOutcomes` | crates/ethp2p-broadcast/src/strategy/rs/state.rs:208-240 | Out of range, accepted and stored, redundant and invalid chunks, each exactly when, and when a chunk counts as completing |
| `Strategies.NewOriginFresh` | crates/ethp2p-broadcast/src/strategy/rs/state.rs:58-68 | A new origin is well shaped, holds every shard and has nothing allocated |
| `PlannerHeap.EmitPlanner.Allocate` | crates/ethp2p-broadcast/src/strategy/rs/planner.rs:114-186 | The lazy heap returns the argmin, or none when there is no eligible shard, and keeps at least one live entry per shard; the chosen shard's live entries afterwards are one more than the entries it had at the new count, the others keep theirs, and a heap with exactly one entry per shard stays so |
| `PlannerHeap.RefundDuplicates` | crates/ethp2p-broadcast/src/strategy/rs/planner.rs:72-77 | Allocate, cancel and refund, allocate again on a new planner: the shard then has two live heap entries |
| `PlannerHeap.PopAcceptable` | crates/ethp2p-broadcast/src/strategy/rs/planner.rs:120-175 | The pop loop yields the best eligible shard, or none exactly when there is none; every shard keeps an entry at its authoritative count; only stale entries are dropped, and none after the chosen one |
| `PlannerHeap.EmitPlanner.RefundAllocation` | crates/ethp2p-broadcast/src/strategy/rs/planner.rs:218-236 | Lowers the count by one, not below zero, and adds exactly one entry at the new count, even if there is one |
| `PlannerHeap.EmitPlanner.RemovePeer` | crates/ethp2p-broadcast/src/strategy/rs/planner.rs:241-247 | Forgets the peer and refunds its in-flight shards one by one |
| `PlannerHeap.EmitPlanner.RecordSent` | crates/ethp2p-broadcast/src/strategy/rs/planner.rs:190-199 | Counts the send, clears the flight and marks the shard as held when the havelist covers it |
| `Planners.Choose` | crates/ethp2p-broadcast/src/strategy/rs/planner.rs:114-186 | None if and only if no shard is eligible; otherwise the least (allocation, priority, index) among eligible shards |
| `Planners.ChoiceIsLeast` | crates/ethp2p-broadcast/src/strategy/rs/planner.rs:114-186 | The choice in plain terms: below the cap, not in flight to the peer and not held by it, with the fewest allocations, then the lowest priority, then the lowest index |
| `Planners.AllocateIsArgmin` | crates/ethp2p-broadcast/src/strategy/rs/planner.rs:114-186 | The best eligible shard, and no other, is assigned |
| `Planners.BestIsUnique` | crates/ethp2p-broadcast/src/strategy/rs/planner.rs:33-47 | The emission order leaves one best shard |
| `Planners.RemovePeerRefunds` | crates/ethp2p-broadcast/src/strategy/rs/planner.rs:241-247 | Removing a peer refunds exactly its in-flight shards, one each, and forgets nothing else |
| `Coding.EncodeLoop` | crates/ethp2p-broadcast/src/strategy/rs/encode.rs:53-92 | The copy, parity and hash loops compute the encoding, with its three error cases |
| `Coding.CopyPayload` | crates/ethp2p-broadcast/src/strategy/rs/encode.rs:62-71 | Writing chunk i over zeroed shard i gives the payload cut into k padded shards |
| `Coding.ShapeFits` | crates/ethp2p-broadcast/src/strategy/rs/encode.rs:100-111 | For a nonempty payload the data shards hold it and the copy loop stays inside them: ceil(L / ceil(L / k)) <= k |
| `Coding.EncodingSurvives` | crates/ethp2p-broadcast/src/strategy/rs/encode.rs:53-111 | Stated by the configuration: the encoding has the data and parity counts asked for and survives the loss of any parity-count shards, or with a chunk length the fewest data shards that hold the payload and as many again and survives the loss of any half |
| `Coding.EncodeAcceptsIff` | crates/ethp2p-broadcast/src/strategy/rs/encode.rs:53-92 | Exactly which payloads are accepted and which error refuses the others, by the counts the configuration asks for |
| `Coding.ConcatSplit` | crates/ethp2p-broadcast/src/strategy/rs/encode.rs:62-71 | Concatenating the data shards gives the payload followed by zero padding |
| `Coding.DecodeLoop` | crates/ethp2p-broadcast/src/strategy/rs/decode.rs:76-140 | The bucket-filling and joining loops compute the decoding, with every error case |
| `Coding.DecodeIsSound` | crates/ethp2p-broadcast/src/strategy/rs/decode.rs:115-140 | Any decoded payload has exactly the declared length and hash |
| `Coding.DecodeNeedsFileable` | crates/ethp2p-broadcast/src/strategy/rs/decode.rs:76-114 | A payload comes out only of a well-shaped preamble and shards with distinct indices in range and one common length |
| `Coding.FillsIff` | crates/ethp2p-broadcast/src/strategy/rs/decode.rs:88-108 | The shards are filed exactly when each fits a free slot, and then every slot holds its shard |
| `Coding.FillErrors` | crates/ethp2p-broadcast/src/strategy/rs/decode.rs:88-108 | Each filing error names a shard that is at fault |
| `Coding.KOfNRoundTrip` | crates/ethp2p-broadcast/src/strategy/rs/decode.rs:76-140 | Any k or more genuine shards with distinct indices, in any order, decode to the encoded payload |
| `Coding.OnlyGenuineChunksVerify` | crates/ethp2p-broadcast/src/strategy/rs/verify.rs:103-124 | With unforged shards a chunk verifies if and only if it is the encoder's shard of that index |
| `Coding.ValidatePreamble` | crates/ethp2p-broadcast/src/strategy/rs/verify.rs:62-95 | A preamble is accepted exactly when its counts, length, hash count and hash lengths are consistent |
| `Coding.VerifyChunk` | crates/ethp2p-broadcast/src/strategy/rs/verify.rs:103-124 | For a well-shaped preamble a chunk is accepted exactly when its index is in range and its hash is the entry |
| `BitMaps.BitMap.Set` | crates/ethp2p-broadcast/src/strategy/bitmap.rs:69-76 | Inserts an index below n, refuses others, and keeps bits at or above n zero |
| `BitMaps.BitMap.Get` | crates/ethp2p-broadcast/src/strategy/bitmap.rs:80-86 | Membership; false at or above n |
| `BitMaps.BitMap.CountOnes` | crates/ethp2p-broadcast/src/strategy/bitmap.rs:90-92 | Cardinality of the set |
| `BitMaps.BitMap.OrMerge` | crates/ethp2p-broadcast/src/strategy/bitmap.rs:95-106 | Union of sets of equal size, also with itself; refuses other sizes unchanged |
| `BitMaps.BitMap.AsBytes` | crates/ethp2p-broadcast/src/strategy/bitmap.rs:110-126 | The packed bytes of the limbs |
| `BitMaps.BitMap.FromBytes` | crates/ethp2p-broadcast/src/strategy/bitmap.rs:129-155 | Refuses a wrong byte count, otherwise the unpacked limbs with unused bits cleared |
| `BitMaps.UnpackPacked` | crates/ethp2p-broadcast/src/strategy/bitmap.rs:110-155 | Reading back the packed bytes gives the same limbs, for every n |
| `BitMaps.PackUnpacked` | crates/ethp2p-broadcast/src/strategy/bitmap.rs:110-155 | Packing what was read gives the bytes with their unused high bits cleared |
| `BitMaps.SumOnesIsCard` | crates/ethp2p-broadcast/src/strategy/bitmap.rs:90-92 | The limbs' population counts sum to the size of the set |
| `BitMaps.UnpackedMembers` | crates/ethp2p-broadcast/src/strategy/bitmap.rs:129-155 | The set read from bytes is the set of their bits below n |
| `Sims.SchedulerIsOrderly` | crates/ethp2p-sim/src/state.rs:156-252 | Over any interleaving of sends, sleeps, pops and advances: nothing pending is in the past, the (time, number) keys processed strictly increase, everything scheduled is pending or processed exactly once, and every inbound queue holds exactly what was processed for it |
| `Sims.LinkIsFifo` | crates/ethp2p-sim/src/state.rs:156-241 | On a link with constant delay the entries processed are the first ones scheduled, in order of sending: nothing overtakes, is lost or repeated |
| `SimTimes.SendArrivesOnTime` | crates/ethp2p-sim/src/state.rs:156-252 | A message sent with a delay to a registered peer is pending until exactly then, and once time has reached it, it was processed at that time and is in the peer's inbound queue with the sender and the same contents |
| `SimTimes.DroppedNeverArrives` | crates/ethp2p-sim/src/state.rs:156-205 | A dropped message is traced and schedules nothing; one to an unknown peer is refused and changes nothing |
| `SimTimes.SleepEndsOnTime` | crates/ethp2p-sim/src/state.rs:208-252 | A sleep ends exactly when its length has passed |
| `Sims.EarliestExists` | crates/ethp2p-sim/src/state.rs:64-68 | A nonempty heap has an entry that none comes before |
| `SimStates.SimState.SubmitSend` | crates/ethp2p-sim/src/state.rs:156-205 | An unknown destination is an error, a dropped message is traced and still accepted, any other is traced and scheduled at now plus the delay |
| `SimStates.SimState.ScheduleWakeup` | crates/ethp2p-sim/src/state.rs:208-217 | Schedules a wakeup; the invariant holds when it is not in the past |
| `SimStates.SimState.PopNext` | crates/ethp2p-sim/src/state.rs:222-241 | Processes the entry with the least (time, number), moving time to it |
| `SimStates.SimState.AdvanceTo` | crates/ethp2p-sim/src/state.rs:245-252 | Processes everything due, then moves time to the target and never back |
| `SimStates.SimState.RecordEngineStep` | crates/ethp2p-sim/src/state.rs:254-262 | Traces a step under a new number |
| `SimStates.SimState.SleepFor` | crates/ethp2p-sim/src/clock.rs:34-38 | A sleep is a wakeup that far from now, so never in the past |
| `Faults.FaultPlan.ClassifyMessage` | crates/ethp2p-sim/src/net.rs:254-294 | The rule loop computes the classification and uses exactly its random draws |
| `Faults.FaultPlan.AddPartition` | crates/ethp2p-sim/src/net.rs:244-252 | Adds one window rule per direction, after the rules there are |
| `SimStates.SimState.RegisterInbox` | crates/ethp2p-sim/src/state.rs:150-152 | A new empty inbound queue; for a peer not registered before, nothing was ever processed for it |
| `Faults.OnlyOwnLink` | crates/ethp2p-sim/src/net.rs:262-265 | Rules of other links neither affect a message nor use up randomness |
| `Faults.PartitionWindow` | crates/ethp2p-sim/src/net.rs:244-252 | A partition drops exactly the messages between its two peers sent in its window and leaves every other classified as before |
| `Faults.FixedDelaysAddUp` | crates/ethp2p-sim/src/net.rs:254-294 | A link whose rules are unconditional delays delivers every message after their sum; without rules, at once |
| `Faults.SingleRule` | crates/ethp2p-sim/src/net.rs:254-294 | What each kind of rule does alone: chance drops exactly on draws below its probability, predicates and windows exactly on theirs, fixed delays and jitter within its maximum; only chance and jitter use up a draw |
| `Faults.RulesInOrder` | crates/ethp2p-sim/src/net.rs:254-294 | Rules apply in order: the first that drops decides, until then delays add up and draws are used one by one |
| `WireReaders.SendAndReceive` | crates/ethp2p-broadcast/src/chunk.rs:29-146 | For every schedule of short reads into nonempty buffers, a written chunk reads back as the same header and exactly the payload, consuming exactly the written bytes |
| `WireReaders.ReceiveChunk` | crates/ethp2p-broadcast/src/chunk.rs:73-146 | The readers give what the whole-stream parser gives, for every schedule of short reads |
| `WireReaders.ChunkPayloadReader.PollRead` | crates/ethp2p-broadcast/src/chunk.rs:112-146 | Clean end once everything was read; an error exactly when bytes are owed and the stream has ended or the buffer has no room |
| `WireReaders.ChunkPayloadReader.ReadToEnd` | crates/ethp2p-broadcast/src/chunk.rs:112-146 | Exactly the declared bytes, or an error if the stream is short |
| `WireReaders.Stream.TakeFramed` | crates/ethp2p-broadcast/src/wire.rs:48-65 | Length, limit, truncation and decoding errors; the frame is consumed exactly |
| `WireReaders.Stream.TakeSelector` | crates/ethp2p-broadcast/src/selector.rs:29-48 | One byte; zero and unknown values are refused |
| `Wires.ChunkRoundTrip` | crates/ethp2p-broadcast/src/chunk.rs:29-89 | Parsing a written stream, whatever follows it, gives the header, the payload and the position after them |
| `Wires.StrictPrefixFails` | crates/ethp2p-broadcast/src/chunk.rs:98-146 | Any strict prefix of a written stream is an error, never a shorter payload |
| `Wires.ParseIsSound` | crates/ethp2p-broadcast/src/chunk.rs:73-89 | Whatever parses is a selector, a frame that decodes to the header within limits, and exactly the declared payload |
| `Wires.ParsePrefix` | crates/ethp2p-broadcast/src/chunk.rs:73-146 | Parsing depends on no byte past its end |
| `Wires.FromSelector` | crates/ethp2p-broadcast/src/selector.rs:29-48 | Exactly the three known protocols are accepted, each from its own byte |
| `Wires.FromBe32RoundTrip` | crates/ethp2p-broadcast/src/wire.rs:34-55 | Four bytes and their big-endian value determine each other |
| `Wires.WriteFramed` | crates/ethp2p-broadcast/src/wire.rs:22-42 | A frame is written exactly when the body is within the limit |

## Left out

- QUIC, TLS, tokio tasks, queues and wakers: only their effect, as send results and later events.
- Protobuf encoding, SHA-256 and Reed-Solomon internals: parameters with stated hypotheses.
- Identifiers are naturals; channel, message and peer strings and their ordering are not modelled beyond equality and order.
- Channel objects: their sessions are one table of the engine keyed by channel and message, and a session there is a value, so
  aliasing between engine, channel and session objects is not captured. `SessionState` and `RsStrategy` model the objects
  themselves.
- Integer widths: counts and handles are unbounded, so the wrap-around of the 64-bit handle and of 32-bit counters is absent;
  the 32-bit limits that encode and validation check are modelled.
- The routing update's bytes on the engine's wire: the havelist itself is sent; its byte form is in `BitMap`.
- Inbound routing updates at the engine, which ignores them; the strategy's own handling of them is modelled.
- `poll_routing` with its force flag set, which nothing in the engine uses.
- EngineResults.LateOutcomeOnlyDrains: speaks of one life of the session, because in the next life of the key the handle is a
  new one (`OutcomeCrossesLives`); `OutcomeIgnoredIff` and `SettledOutcomeOnlyDrains` hold over all lives.
- StrategyRuns.RelayStarves: is about the strategy alone; the run of an engine, with one subscriber, is `EngineStarves`.
- EngineRuns.TablesAgree: publishing over a tombstone or parked chunks is allowed by the source, so the disjointness claims
  are about relay sessions.
- Stateful drop predicates of the simulator (predicates are pure), float rounding of probabilities (reals), message kinds in
  the trace, and re-registration of an inbox during a run.
- `MemoryNet`, the runner, `fib_priority` (any function of the index), planner seeds, mutable back doors used by tests, display
  and tracing code, fuzzing, conformance corpus and build tooling.
