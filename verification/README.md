# A model of the egress broker's session protocol

The egress broker stands between Slack and actors that are suspended whenever they are idle. For
every actor it keeps one `session`: a permanent Slack Socket Mode connection on one side, and on the
other an actor connection that dies with every suspend. The session acknowledges each event to Slack
at once, buffers it until the actor acknowledges it, redelivers it under a newly minted envelope id
on every reconnect, resumes the actor when an event finds it absent, counts the actor's outgoing
calls, and suspends the actor when it has been idle for long enough. The Slack reader, overlapping
actor sockets, two kinds of timer, forwarded calls and resume and suspend calls all change the same
session concurrently, under two locks (`mu` and `sinkWrite`).

This project models that protocol and proves what it guarantees over every run.

## How the model is built

- `SessionCore` holds the session's fields as a value, one function for each critical section of
  `mu`, and the effect of `GetOrCreate` on the sessions on file. `SessionObject` holds the objects:
  the class `Session`, each of whose methods updates fields as the source does and is proved equal to
  one of those functions, and the class `Registry`, whose `GetOrCreate` is too; `Lookup` only reads.
- `SessionMachine` is one session under all its goroutines. A step is one critical section of `mu`,
  one lock or unlock of `sinkWrite`, one "still current?" test or one `WriteFrame`; every
  interleaving is a run. The state carries history besides the fields: events received, ids minted,
  frames attempted per connection, keys acknowledged, calls started, failed and running.
- `LogRefinement`, `Placement`, `Delivery`, `Content`, `Lifecycle`, `IdleSuspend` and
  `FallbackDelivery` each prove that every step keeps one group of invariants; `SessionInvariant`
  puts them together for every reachable state.
- `DeliveryTheorems`, `HeldDelivery`, `AckTheorems`, `LifecycleTheorems`, `MidSend`, `QuietPeriod`,
  `PromptTimers`, `Progress` and `Wakeups` state what follows.
- `SocketMode` (frames and rewriting), `Identity`, `Tickets` and `EchoActor` model the pieces around
  the session, `ReadLoop` and `WriteLoop` the two loops that talk to the outside, `World` all actors
  together.

Each class method proved against a `SessionCore` function has the same meaning as the machine step
built from that function, so what is proved about runs is about what the methods do. The loop of
`writeToSink`, which the machine splits into its steps, is tied to them by `WriteLoop.CallIsTheLoop`,
and the registry of `World` to the class by `World.GetOrCreateAgrees`.

## Assumptions

- `randID` and ticket values are never empty and never drawn twice.
- Every accepted WebSocket is a new sink, attached once. Its `MarkReady`, `Ack` and `Detach` happen
  in the goroutine that attached it, after `Attach` has returned.
- Fewer than 2^64 events arrive in one session (keys are natural numbers here).
- Resume and suspend calls succeed or fail at any later time, or never return.
- A timer never fires early, and a fired timer's callback may be delayed arbitrarily. Idle timers
  follow the machine's clock; a fallback delivery may fire at any time after it was armed, which
  admits more runs than the program has.
- The Slack reader waits for a frame only after it has found `stop` open; dialing, reconnecting and
  frames that are not events are steps in which nothing else happens.
- Session clocks and the ticket clock advance independently.
- JSON is modelled as values with exact, unique member names (section 4 of RFC 8259). A frame of the
  model carries, beside its content, the key of the event it was stamped from.
- Which actor a request comes from is arbitrary.

## Where the code and its comments disagree

- "Never suspend mid-send" (cmd/egress-broker/registry.go:133-134) fails in two ways. First, the
  decision: `Detach` zeroes `inFlight` while a forward is still running, and `onIdle` can then decide
  to suspend the reconnected actor (`Progress.DecidesMidSendAfterDisconnect`). Up to the next
  disconnect no decision is taken mid-send if and only if idle suspend is off, the counter equals the
  forwards outstanding, or a suspend is marked and no suspend call is running
  (`MidSend.NeverDecidesMidSendIff`). Second, what follows the decision: the suspend call takes time
  and `beginForward` does not look at `suspending`, so a forward that begins meanwhile is cut off,
  with no disconnect and an exact counter (`MidSend.CutsOffWithoutDisconnect`). Up to the next
  disconnect no suspend goes through mid-send if and only if idle suspend is off, or a suspend is
  marked and no suspend call is running (`MidSend.NeverSuspendsMidSendIff`); without regard to
  disconnects, if and only if idle suspend is off (`Progress.SuspendsMidSendSomewhereIff`).
- `idleGrace` after the last activity, be it a delivery, an ack or a forward
  (cmd/egress-broker/registry.go:131-132), fails in two ways as well. `onIdle` does not look at
  whether the countdown was restarted, so activity between a timer firing and its callback taking
  `mu` is overlooked (`QuietPeriod.ActivityMayBeOverlooked`). And an event counts only when
  `noteActivity` runs, after it has been written, so a suspend can be decided at the very moment of a
  delivery, even if every callback runs at once (`PromptTimers.DeliveryMayBeOverlooked`). From any
  reachable state every decision before the next activity keeps the period if and only if a suspend is
  under way, a forward is counted, the period is already over, or no callback is queued and either no
  countdown is pending or no event was written later than the last touch of the idle timer
  (`QuietPeriod.QuietPeriodIff`). Comparing `idleTmr` with the timer that fired, which `onIdle` does
  not do, would tell the callbacks of the first kind apart
  (`QuietPeriod.TimerFieldTellsStaleCallbacks`). When firing and callback are one step, the period is
  kept unless a delivery is still to be noted (`PromptTimers.QuietPeriodGuarantee`).
- An event is delivered "resuming the actor first if it is suspended"
  (cmd/egress-broker/registry.go:327-328), but buffered events do not imply that the actor will be
  woken. Only an arriving event starts a resume, so events left by a disconnect wait for the next one
  (`Wakeups.StrandedByDisconnect`), and after a resume that succeeded for an actor that then did not
  connect, later events start none either (`Wakeups.StrandedByResume`). `Wakeups.WokenWithoutNewsIff`
  and `Wakeups.ResumeMayStartIff` give the exact conditions.
- "Echo each Slack ts at most once" (echo-actor/app.js:118-119) fails for an event redelivered after
  the 60 seconds the actor remembers: `EchoActor.EchoesTwiceAfterAMinute`. It holds for exactly those
  runs in which no event worth echoing is delivered after the timer of its timestamp has run:
  `EchoActor.EchoesAreSpaced`.
- `rewriteEnvelopeID` promises to return undecodable input as it is, but JSON `null` unmarshals into
  a nil map and the assignment panics. `SocketMode.RewriteOutcomes` shows it is the only such input,
  and `RewritePreservesMeaning` that no buffered event can be it.

## Model

| member | source | states |
|---|---|---|
| `DeliveryTheorems.ExactlyOncePerSettledConnection` | cmd/egress-broker/registry.go:329-409 | In every reachable state where the current connection is settled, no write on it failed and no delivery is in progress, each buffered event has been written to that connection in exactly one frame, which decodes to the event under the frame's own id |
| `DeliveryTheorems.TraceShape` | cmd/egress-broker/registry.go:341-409 | The frames attempted on any connection are hello, live events, one contiguous batch, live events, cut off anywhere; batch and live parts are each in arrival order and every live event is newer than the batch |
| `DeliveryTheorems.AtMostOncePerConnection` | cmd/egress-broker/registry.go:534-546 | No connection is ever offered the same event twice, whatever heartbeats, fallback timers and live events race |
| `DeliveryTheorems.SupersededGoQuiet` | cmd/egress-broker/registry.go:393-409 | From any reachable state in which a connection has been replaced or detached, every continuation leaves it superseded and writes at most one more frame to it, however many writers are under way |
| `DeliveryTheorems.HeldEventsHaveAFallback` | cmd/egress-broker/registry.go:485-546 | While events are held for a greeted connection, its fallback timer alone can settle it if and only if a positive delay is configured, even though overlapping attaches overwrite the one timer field |
| `HeldDelivery.HeldUntilHeartbeat` | cmd/egress-broker/registry.go:498-518 | A connection attached while events are buffered gets at most hello and is not settled, on every continuation in which its client sends no ping and no fallback timer delivers to it; with no positive delay, on every continuation without a ping |
| `HeldDelivery.NothingHeldSettlesAtOnce` | cmd/egress-broker/registry.go:503-507 | A connection attached with nothing buffered is settled by the time `Attach` returns if it is still current, whatever else happens, with no ping or timer needed |
| `HeldDelivery.StoppedTimerNeverFires` | cmd/egress-broker/registry.go:490-493 | A fallback timer the session points at when a connection attaches, the current one detaches or one settles never fires on any continuation |
| `HeldDelivery.RepeatedHeartbeatChangesNothing` | cmd/egress-broker/registry.go:520-538 | A ping on a settled or superseded connection leaves the whole state as it was |
| `HeldDelivery.DetachAndFallbackHappenOnce` | cmd/egress-broker/server.go:222-262 | After its detach a socket's handler handles no ack, ping or further detach, and a fallback timer delivers at most once |
| `AckTheorems.MailboxIsLog` | cmd/egress-broker/registry.go:329-436 | In every reachable state the buffer is the received history in order minus the acknowledged events, the id table is the stamp history minus the same, the next key is the number received, and an empty buffer forces an empty id table |
| `AckTheorems.IdTableIsBounded` | cmd/egress-broker/registry.go:366-388 | The id table never holds more ids than buffered events times attaches |
| `AckTheorems.StampsAreUnique` | cmd/egress-broker/registry.go:366-388 | Of any two ids ever minted, they stand for the same event on the same connection if and only if they are the same id |
| `AckTheorems.AckRemovesItsEvent` | cmd/egress-broker/registry.go:413-436 | Echoing the envelope id decoded from any frame ever attempted, on any past or current connection, removes exactly the event that frame carried and all its ids, and changes nothing if that event was acknowledged before |
| `AckTheorems.AckFromAnySocket` | cmd/egress-broker/server.go:253-262 | Whichever handler reads a decodable frame whose `envelope_id` is that of a frame ever attempted, the event of that frame and all its ids are gone from the mailbox and nothing else |
| `AckTheorems.AckedIdIs` | cmd/egress-broker/server.go:259-261 | A frame from the actor acknowledges the string at its `envelope_id` if it is a decodable object, and nothing otherwise |
| `AckTheorems.AcksAreConfluent` | cmd/egress-broker/registry.go:413-436 | Two bursts of acks that speak for the same set of events leave the same buffer and id table, whatever their order, repetitions and unknown ids |
| `AckTheorems.AcksAccumulate` | cmd/egress-broker/server.go:253-262 | A burst of acks adds to the acknowledged set exactly the events its known ids were minted for, and keeps the log refinement |
| `Progress.EveryEventStaysDeliverable` | cmd/egress-broker/registry.go:393-557 | From every reachable state some continuation brings up a new connection, delivers every buffered event to it exactly once and ends with an empty buffer: no interleaving wedges `sinkWrite` or strands an event |
| `Progress.DecidesMidSendAfterDisconnect` | cmd/egress-broker/registry.go:562-568 | With idle suspend on, some run decides to suspend the actor while a forward is outstanding |
| `Progress.SuspendsMidSendSomewhereIff` | cmd/egress-broker/registry.go:167-209 | From every reachable state some continuation has a suspend go through while a forward is outstanding if and only if idle suspend is on |
| `LifecycleTheorems.ResumesAreJustified` | cmd/egress-broker/registry.go:332-357 | Resuming implies no current connection and a buffered triggering event never stamped for any connection; every resume has its own trigger; resumes started are at most attaches plus failed resumes plus one while resuming; once every resume started has failed, the next event may retry |
| `LifecycleTheorems.ForwardAccounting` | cmd/egress-broker/registry.go:193-209 | The counter lies between the outstanding forwards minus those cut off at the last effective detach and the outstanding forwards; a suspend decision implies no more outstanding than cut off; suspends started are at most effective detaches plus failures plus one while suspending, and once all have failed the actor counts as not suspending |
| `LifecycleTheorems.ForwardPairRestores` | cmd/egress-broker/server.go:285-292 | A forward may begin in any state, and its end restores the counters and changes nothing else but the countdown |
| `MidSend.NeverDecidesMidSendIff` | cmd/egress-broker/registry.go:167-209 | From every reachable state, no continuation up to the next disconnect takes a suspend decision during a forward if and only if idle suspend is off, the counter equals the outstanding forwards now, or a suspend is marked and no suspend call is running |
| `MidSend.NeverSuspendsMidSendIff` | cmd/egress-broker/registry.go:167-200 | From every reachable state, no continuation up to the next disconnect has a suspend call return successfully during a forward if and only if idle suspend is off, or a suspend is marked and no suspend call is running |
| `MidSend.CutsOffWithoutDisconnect` | cmd/egress-broker/registry.go:193-200 | With idle suspend on, no decision can be taken mid-send before the first disconnect, and yet some run without any disconnect and with an exact counter has a suspend call return successfully during a forward |
| `LifecycleTheorems.AbsentActorIsReset` | cmd/egress-broker/registry.go:562-579 | In every reachable state without a current connection nothing is settled or suspending and no idle countdown is pending |
| `LifecycleTheorems.NoConnectionStaysAwake` | cmd/egress-broker/registry.go:146-175 | A settled connection with nothing in flight and no suspend under way has an idle countdown pending or its callback queued, unless the settling call has yet to note the activity |
| `LifecycleTheorems.ActivityRestartsCountdown` | cmd/egress-broker/registry.go:146-209 | After a noted delivery, an ack of an event still buffered, the end of a forward or a failed suspend exactly one countdown is pending, armed now, if the actor is connected, not being suspended and has nothing in flight, and none otherwise |
| `LifecycleTheorems.ForwardAndDetachStopCountdown` | cmd/egress-broker/registry.go:193-200 | The beginning of a forward and the current connection's detach leave no countdown pending |
| `LifecycleTheorems.ReaderFieldsOverRuns` | cmd/egress-broker/registry.go:227-240 | After every run the token is that of the last `EnsureStarted`, the session is closed exactly if `Close` was called, and its reader is started exactly if some `EnsureStarted` came before any `Close` |
| `QuietPeriod.SuspendFollowsQuietPeriod` | cmd/egress-broker/registry.go:155-175 | Every suspend decision waited out its own countdown, and either the idle timer was untouched for the whole grace period or the callback had fired before the touch |
| `QuietPeriod.QuietPeriodIff` | cmd/egress-broker/registry.go:131-175 | From every reachable state, every suspend decision before the next touch of the idle timer or event written comes at least the grace period after the last one, if and only if now a suspend is under way, a forward is counted, the period is over, or no callback is queued and either no countdown is pending or no event was written later than the last touch |
| `QuietPeriod.QuietSinceIff` | cmd/egress-broker/registry.go:155-175 | For every reachable state and any moment: every suspend decision before the next touch comes at least the grace period after that moment, if and only if a suspend is under way, a forward is counted, that period is over, or no callback is queued and no countdown armed before that moment is pending |
| `QuietPeriod.StepActivity` | cmd/egress-broker/registry.go:131-132 | The last activity moves exactly with the steps that touch the idle timer or write an event to the actor |
| `QuietPeriod.LaggingTimerHasUnnotedDelivery` | cmd/egress-broker/registry.go:549-556 | If an event was written since the idle timer was last touched, some delivering call has not reached `noteActivity` |
| `QuietPeriod.TimerFieldTellsStaleCallbacks` | cmd/egress-broker/registry.go:155-175 | For every queued callback in every reachable state, `idleTmr` points at its timer if and only if it fired after the last touch, and then the grace period has been kept |
| `QuietPeriod.ActivityMayBeOverlooked` | cmd/egress-broker/registry.go:167-175 | Some run decides to suspend at the very moment of the last activity |
| `PromptTimers.QuietPeriodGuarantee` | cmd/egress-broker/registry.go:155-209 | When firing and callback are one step, a pending countdown means connected, idle and not suspending; every suspend decision comes at least the grace period after the timer was last armed or cancelled, and after the last activity unless an event was written since, whose delivery then is still to be noted |
| `PromptTimers.DeliveryMayBeOverlooked` | cmd/egress-broker/registry.go:341-358 | For every event, some run in which firing and callback are one step decides to suspend at the very moment the event is written to the actor |
| `Wakeups.WokenWithoutNewsIff` | cmd/egress-broker/registry.go:332-357 | Some continuation without a further event can have a resume call succeed if and only if one is running now |
| `Wakeups.ResumeMayStartIff` | cmd/egress-broker/registry.go:332-357 | For every reachable state without a connection, some continuation without an attach starts a resume if and only if the actor is not presumed resumed by a call that has returned, and the session is open or its reader waits for a frame |
| `Wakeups.StrandedByDisconnect` | cmd/egress-broker/registry.go:562-579 | For every event, some run leaves it buffered with the actor absent and no resume under way |
| `Wakeups.StrandedByResume` | cmd/egress-broker/registry.go:468-478 | For every event, some run leaves it buffered with the actor absent, every resume call returned and the session still marked as resuming |
| `LifecycleTheorems.CloseEndsReading` | cmd/egress-broker/registry.go:582-593 | After a call of `Close` at most one more event comes in on any continuation, and none unless the reader was waiting for a frame |
| `World.RoutingIsolation` | cmd/egress-broker/server.go:191-212 | Every event frame attempted on a socket carries an event received by the one reader of the only session of exactly the actor the socket's ticket was issued to, and no other session ever had the socket |
| `World.OneReaderPerActor` | cmd/egress-broker/registry.go:227-240 | At most one reader is ever started per session, only by `EnsureStarted`, and none once closed |
| `World.GoldenIsInert` | cmd/egress-broker/server.go:151-162 | A golden actor's session never has a reader, never buffers, stamps or resumes, and its sockets only ever get hello |
| `World.TokenIsTheActorsLatest` | cmd/egress-broker/server.go:160-162 | In every run of the broker the token of an actor's session is that of the actor's own last bootstrap request |
| `World.TicketsFollowReaders` | cmd/egress-broker/server.go:151-162 | In every run, an actor outside `ate-golden` that a ticket was ever issued to has its reader started, or its session closed |
| `World.GetOrCreateAgrees` | cmd/egress-broker/registry.go:92-101 | The broker's `GetOrCreate` changes the sessions on file as the registry object's method does, and the actor's session is its old one or a new one |
| `World.SessionsBehaveAsAlone` | cmd/egress-broker/registry.go:92-101 | Every session in every run of the whole broker is in a reachable state of the one-session machine |
| `World.BrokerStepKeepsInv` | cmd/egress-broker/server.go:151-212 | Every request, ticket, socket or session step keeps: one session per actor, sockets only in the session their ticket names, one admission per ticket, golden sessions inert |
| `SessionInvariant.StepKeepsInv` | cmd/egress-broker/registry.go:146-593 | Every step of every goroutine keeps all invariants of a session |
| `SessionInvariant.ReachableInv` | cmd/egress-broker/registry.go:146-593 | All invariants hold in every reachable state |
| `LogRefinement.StepKeepsLog` | cmd/egress-broker/registry.go:329-436 | Every step keeps buffer and id table equal to their functions of the log |
| `LogRefinement.RemoveKeyIsAck` | cmd/egress-broker/registry.go:423-428 | Splicing the event with a key out of the buffer is the same as adding the key to the acknowledged set |
| `LogRefinement.RecordIdsFollow` | cmd/egress-broker/registry.go:382-388 | The ids a batch adds to the table are the ids it adds to the stamp history |
| `Placement.StepKeepsLock` | cmd/egress-broker/registry.go:393-409 | `sinkWrite` has one holder, and exactly the holder is between lock and unlock |
| `Placement.StepKeepsFresh` | cmd/egress-broker/registry.go:227-240 | One handler per connection, one reader if and only if started, each fallback timer runs once |
| `Placement.StepKeepsPlace` | cmd/egress-broker/registry.go:485-557 | Each connection is settled by one thread, and before that only hello is under way to it |
| `Delivery.StepKeepsFlow` | cmd/egress-broker/registry.go:341-409 | Frames attempted and frames still to be written account, in order, for every frame stamped for a connection that is current and has seen no failure |
| `Content.StepKeepsContent` | cmd/egress-broker/registry.go:366-388 | Every stamped frame carries the received event of its key, every id minted belongs to one stamped frame, and a settled connection has a frame for every event still buffered |
| `Lifecycle.StepKeepsResume` | cmd/egress-broker/registry.go:332-357 | The resume flag and the resume tally stay justified |
| `Lifecycle.AckKeepsResume` | cmd/egress-broker/registry.go:413-436 | An ack cannot remove the undelivered event a resume waits on |
| `IdleSuspend.StepKeepsTimer` | cmd/egress-broker/registry.go:155-209 | At most one countdown is pending, armed at the last touch; every queued callback waited out its own, and was armed at the last touch if the timer field still points at it and had fired by then otherwise |
| `IdleSuspend.StepTouches` | cmd/egress-broker/registry.go:146-209 | The idle timer is touched by exactly these steps: noted activity, an ack of a known id, the current connection's detach, begin and end of a forward, a failed suspend |
| `IdleSuspend.StepKeepsCountdownsOff` | cmd/egress-broker/registry.go:155-164 | Without a positive grace period no countdown or callback ever exists and no suspend call ever runs |
| `IdleSuspend.StepKeepsDelivery` | cmd/egress-broker/registry.go:549-556 | Every step keeps: an event written since the last touch belongs to a delivering call that has not reached `noteActivity` |
| `IdleSuspend.StepKeepsReset` | cmd/egress-broker/registry.go:562-579 | No step leaves a settled or suspending flag or a pending countdown behind an absent connection |
| `IdleSuspend.StepKeepsAwake` | cmd/egress-broker/registry.go:146-164 | No step leaves a settled, quiet connection without a countdown |
| `FallbackDelivery.StepKeepsFallback` | cmd/egress-broker/registry.go:485-518 | No step robs the current connection of its fallback delivery while events are held |
| `FallbackDelivery.StepKeepsHeartbeatOnly` | cmd/egress-broker/registry.go:508-517 | Without a positive delay no fallback timer ever exists |
| `SocketMode.RewritePreservesMeaning` | cmd/egress-broker/registry.go:447-462 | Rewriting an event frame reaches neither the fallback nor the panic; the outcome decodes to the same envelope under the new id, with every other member unchanged, and is again an event frame |
| `SocketMode.RewriteOutcomes` | cmd/egress-broker/registry.go:447-462 | Rewriting preserves meaning if and only if the input decodes and is not JSON null; it panics if and only if the input is JSON null; on any object `envelope_id` becomes the new id and every other member stays; on anything else the input is returned |
| `SocketMode.RewriteTwice` | cmd/egress-broker/registry.go:447-462 | Rewriting a rewritten frame is rewriting the original |
| `SocketMode.DecodeOutcomes` | internal/socketmode/protocol.go:101-107 | Decoding succeeds on JSON null, as the empty envelope, and on exactly the objects whose known members are absent, null or of their type and range; each field is the value of the member of its own name |
| `SocketMode.EventFrameIff` | internal/socketmode/protocol.go:83-90 | A frame is an event exactly if it is a decodable object whose `type` is `events_api`, `slash_commands` or `interactive` |
| `ReadLoop.ReadSlackUntilClose` | cmd/egress-broker/registry.go:285-325 | For every frame stream the loop's actions are, for exactly the event frames before the first disconnect, read error or stop, in order, the Slack ack and then the hand-over to `onEvent`, whether or not acks are accepted |
| `ReadLoop.TakeEvent` | cmd/egress-broker/registry.go:311-319 | An event is acknowledged to Slack, then handed on; a refused ack only warns |
| `ReadLoop.UpToEnd` | cmd/egress-broker/realslack.go:137-147 | The reads before the first transport error, undecodable frame or disconnect |
| `ReadLoop.EndsLoopIff` | cmd/egress-broker/registry.go:293-309 | The loop ends exactly at a transport error, at text that is neither null nor a decodable object, and at an object of type `disconnect` |
| `ReadLoop.EventsOfParts` | cmd/egress-broker/registry.go:300-324 | The events of a stream in two parts are those of the first followed by those of the second |
| `ReadLoop.EventsOfOne` | cmd/egress-broker/registry.go:310-319 | A single read yields its frame exactly if that is an event frame |
| `ReadLoop.EventEnvelopeId` | cmd/egress-broker/registry.go:313 | The id acknowledged to Slack for an event is the string at its `envelope_id` |
| `ReadLoop.StreamOnlyAppends` | cmd/egress-broker/registry.go:329-340 | A stream's events are appended to the buffer in order under consecutive keys, resuming is set only for an absent actor, and a stream without events changes nothing |
| `WriteLoop.WriteToSink` | cmd/egress-broker/registry.go:393-409 | The frames attempted are the longest prefix in which each was preceded by finding the sink current and every earlier write succeeded |
| `WriteLoop.CallIsTheLoop` | cmd/egress-broker/registry.go:393-409 | For every call under way in every reachable state and every interleaving up to its unlock, what it attempts is what the sequential loop attempts with the answers the call gets, and nothing else is written to its connection meanwhile |
| `WriteLoop.WroteIsUnique` | cmd/egress-broker/registry.go:393-409 | The answers to tests and writes determine the frames attempted |
| `WriteLoop.OtherWritersWait` | cmd/egress-broker/registry.go:394-395 | While one caller holds `sinkWrite` no other can take it, test, write or unlock |
| `SessionObject.Session.OnEvent` | cmd/egress-broker/registry.go:329-358 | The new session value, what is written to whom, and whether a resume is needed |
| `SessionObject.Session.StampLocked` | cmd/egress-broker/registry.go:366-378 | The frame carries the event under the minted id and the id points at the event's key; nothing else changes |
| `SessionObject.Session.BuildEventFramesLocked` | cmd/egress-broker/registry.go:382-388 | The loop stamps every buffered event once, in order, and records every id |
| `SessionObject.Session.Ack` | cmd/egress-broker/registry.go:413-436 | The whole effect of an ack; the empty id and unknown ids change nothing |
| `SessionObject.Session.RemoveBuffered` | cmd/egress-broker/registry.go:423-428 | The in-place splice removes the first event with the key and keeps the rest in order |
| `SessionObject.Session.ForgetIds` | cmd/egress-broker/registry.go:430-434 | The delete loop removes exactly the ids that point at the key |
| `SessionObject.Session.Attach` | cmd/egress-broker/registry.go:485-496 | The connection becomes current and unsettled, no resume is under way, the fallback timer is stopped |
| `SessionObject.Session.ArmFallback` | cmd/egress-broker/registry.go:513-517 | A further fallback is armed and the timer field points at it; an earlier one is not stopped |
| `SessionObject.Session.DeliverBufferedNow` | cmd/egress-broker/registry.go:534-546 | For the current, unsettled connection all buffered events are stamped and it is settled; otherwise nothing happens |
| `SessionObject.Session.Detach` | cmd/egress-broker/registry.go:562-579 | Only the current connection's detach resets the link, the counters and the timers |
| `SessionObject.Session.ArmIdleLocked` | cmd/egress-broker/registry.go:155-164 | The countdown restarts exactly when connected, not suspending, nothing in flight and the grace period positive; otherwise it stops |
| `SessionObject.Session.OnIdle` | cmd/egress-broker/registry.go:167-175 | The callback decides to suspend exactly when connected, not suspending and nothing in flight |
| `SessionObject.Session.SuspendFailed` | cmd/egress-broker/registry.go:180-188 | A failed suspend clears the flag and restarts the countdown |
| `SessionObject.Session.BeginForward` | cmd/egress-broker/registry.go:193-200 | One more in flight, countdown stopped |
| `SessionObject.Session.EndForward` | cmd/egress-broker/registry.go:202-209 | One fewer, never below zero, countdown restarted if allowed |
| `SessionObject.Session.ResumeFailed` | cmd/egress-broker/registry.go:473-478 | A failed resume lets a later event retry |
| `SessionObject.Session.EnsureStarted` | cmd/egress-broker/registry.go:227-240 | The token is replaced; a reader is started exactly when none was and the session is not closed |
| `SessionObject.Session.Close` | cmd/egress-broker/registry.go:582-593 | The session is closed, idempotently |
| `SessionObject.Registry.GetOrCreate` | cmd/egress-broker/registry.go:92-101 | Returns the actor's own session, creating a new one exactly when there is none; every other session on file is untouched, and sessions stay filed under their own actor |
| `SessionObject.Registry.Lookup` | cmd/egress-broker/registry.go:106-110 | Finds the actor's own session if and only if there is one, and creates none |
| `Tickets.TicketsOverRuns` | cmd/egress-broker/server.go:311-346 | On every run the table is the issued tickets not presented since; a ticket succeeds exactly if issued, unspent and not past its expiry, yields its own actor, and never succeeds twice |
| `Tickets.PresentSucceedsIff` | cmd/egress-broker/server.go:311-346 | Presenting a ticket after any sequence of steps yields an actor if and only if some step issued it to that actor, no later step presented it, and at most 120000 ms passed since |
| `Tickets.TicketStepKeepsInv` | cmd/egress-broker/server.go:311-346 | Every issue, presentation or passing of time keeps the table, the spent tickets and the grants consistent |
| `Tickets.TicketTable.IssueTicket` | cmd/egress-broker/server.go:311-319 | The table gains the ticket with its actor and an expiry two minutes on |
| `Tickets.TicketTable.RedeemTicket` | cmd/egress-broker/server.go:336-346 | Success exactly for a known, unexpired ticket; the entry is gone in every case |
| `Identity.ParseIsInverseOfString` | cmd/egress-broker/server.go:324-334 | A string parses to an identity if and only if it is the atespace, a slash and the name, both non-empty and slash-free; and if and only if the well-formed identity prints as that string |
| `Identity.ParsedActorsHaveDistinctKeys` | cmd/egress-broker/ateapi.go:83-84 | Two parsed actors have the same resume single-flight key if and only if they are the same |
| `Identity.UnparsedActorsMayShareAKey` | cmd/egress-broker/ateapi.go:36 | Without the parser's restriction two actors can share a key |
| `Identity.IndexOf` | cmd/egress-broker/server.go:325 | The first position of the character, or -1 exactly if it is absent |
| `EchoActor.EchoesAreSpaced` | echo-actor/app.js:120-144 | For any deliveries and redeliveries, two replies to one Slack timestamp are at least 60 seconds apart, and each timestamp is echoed at most once if and only if the run delivers no event worth echoing after the timer of its timestamp has run |
| `EchoActor.AnswersIff` | echo-actor/app.js:120-144 | After any run a step adds a reply to a timestamp if and only if it delivers a frame that asks for one and no earlier frame asked for the same timestamp without its timer having run since; no other reply is ever added |
| `EchoActor.PromptAnswersIff` | echo-actor/app.js:120-130 | If no timer is overdue, a frame that asks for a reply gets one if and only if its timestamp was not answered within the last 60000 ms |
| `EchoActor.BringsWhatItAsks` | echo-actor/app.js:128-144 | A frame asks for a reply exactly if its `payload.event` is of type `message` or `app_mention`, with no `bot_id`, no `subtype` and that `ts` |
| `EchoActor.EchoesTwiceAfterAMinute` | echo-actor/app.js:118-126 | Every echo-worthy event can be echoed twice |
| `EchoActor.RedeliveryIsTheSameEvent` | cmd/egress-broker/registry.go:447-462 | A redelivered frame brings the actor the same event as the original |
| `EchoActor.Actor.FirstTime` | echo-actor/app.js:121-126 | True exactly for a non-empty timestamp not remembered, which is then remembered for 60 seconds |
| `EchoActor.Actor.EchoReply` | echo-actor/app.js:128-130 | Replies exactly to events without bot id and subtype whose timestamp is new |
| `EchoActor.Actor.Forget` | echo-actor/app.js:124 | The timer forgets that timestamp and no other |

## Left out

- Arrival order over a whole connection: the code does not promise it, because a connection counts as settled before its batch takes `sinkWrite` and live events can overtake the batch; `TraceShape` states the order that does hold.
- Liveness under a scheduler: `EveryEventStaysDeliverable` and `HeldEventsHaveAFallback` say that a continuation exists, not that goroutines are scheduled fairly.
- The length of the fallback delay and of resume and suspend timeouts: they may elapse at any time.
- Go's case-insensitive field matching, duplicate member names, JSON text syntax, and JavaScript truthiness of non-string `bot_id`, `subtype` and `ts` values.
- `runSlack` reconnects, `nextBackoff` and `sleepOrStop` (cmd/egress-broker/registry.go:245-282, 595-613): `ReadSlackUntilClose` covers each connection's stream, and the machine lets any time pass between two events, so the length of the pauses has no bearing on the invariants.
- Dialing and framing of Slack connections (cmd/egress-broker/realslack.go), except that an undecodable message ends the read loop.
- gRPC, single-flight and backoff inside `Resume`, `Suspend` and `LocateByPodIP` (cmd/egress-broker/ateapi.go), and `locateWithRetry`: their outcome is arbitrary here.
- HTTP proxying in `handlePassthrough` beyond the pairing of begin and end, header handling and the pong reply.
- Certificate minting (cmd/egress-broker/tlsmint.go), start-up code, the suspend helper, the demo and deployment files.
- `ParseEventCallback` and `IsHumanMessage` (internal/socketmode/protocol.go), which the broker does not use.
- Posting the reply: `EchoReply` decides whether to reply; whether Slack accepts it is not modelled.
