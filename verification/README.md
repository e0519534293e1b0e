# IStream control channel: a verified model

IStream connects two computers on a local network: one views, the other shares its screen. This
project models the control connection between them and proves what it promises.

- `ProtocolContracts`, `SessionCryptography`, `EnvelopeText`: messages, the handshake and the message
  cipher (symbolic), and the text and size of an envelope.
- `SessionModel`: what one session does, as functions on its state. `PeerSession` is the session object,
  updated in place; each of its methods is proved to do what the function of that name says.
- `TwoParty`: two sessions joined by two first-in first-out queues, with every action of the users, the
  timers, the network and the surroundings. `Lanes`, `ProtocolInvariant`, `ProtocolSteps`, `OwnActions`,
  `Deliveries`, `Reversals`, `Transfers`, `Steps`, `DeliverySteps` and `Protocol` build the invariant;
  `Guarantees`, `Settlement`, `Grants` and `Completion` say what it means; `OneSide` reads a step of the
  world as an event of one session.
- `SessionRuns`, `Consent`, `PairingHistory`, `Closing`, `KeepAlive`, `Quiescence`: results that need no
  honest peer or no orderly run. `Hazards`, `LateDecision` and `Oversized`: where the code does not keep
  what one might expect.
- `JsonLineTransport`, `DiagnosticsHub`, `PairedPeerStore`, `WebRtcMediaSession`: the line framer, the ring
  buffer, the trust store and the media negotiation queues, each a class proved against its specification.
  `OverlappingNegotiations`: one end of the media negotiation that begins again before it has finished.

The theorems about two ends speak of orderly runs: nothing is delivered to a session, and nothing closes
it, while it waits for the trust store; payloads are small enough for a frame and valid; fewer than 2^63
messages were sent. `Hazards` has runs that break the first condition (and `Guarantees.DeliveryIsRefusedIff`
does without it), `Oversized` shows what breaking the second does, and the third keeps counters away from
their 64-bit limit.

Where the code does something other than one would expect, the code is modelled:

- A pairing that waits for the trust store becomes connected when it answers, even if the session was
  closed meanwhile (`Closing.ClosedIsFinalIff`, `Hazards.ClosedSessionConnects`).
- A media signal or diagnostics request that meets a responder still waiting for its trust store closes it
  as an error (`Guarantees.MediaFindsConnectedIff`, `Hazards.SignalFindsNoConnection`).
- A closed session can get a role back from a late reversal decision (`Closing.RoleAfterTheEndIff`,
  `LateDecision.ClosedSessionGetsRole`).
- The message counter moves before the frame size is checked (`Oversized.InStepIffItFits`).
- A data event goes on after a line that closed the connection (`JsonLineTransport.SameForEveryCutIff`).
- With a clock that goes back, the head of a full ring buffer can be too old (`DiagnosticsHub.OldHeadIff`,
  `DiagnosticsHub.OldRecordAtTheHead`).
- A sharer that restarts while an earlier offer is still being handed over can send a candidate of the new
  generation before its offer (`OverlappingNegotiations.OrderIsKeptIff`, `OverlappingNegotiations.CandidateOvertakesOffer`).

## Model

The theorems come first; the rows of `PeerSession.PeerSession`, at the end, say that each method of the session
object does what the function of that name in `SessionModel` says, which the theorems are about.

| member | source | states |
|---|---|---|
| `Protocol.StepKeepsInvariant` | src/main/connectivity/PeerSession.ts:280-576 | every action of a user, a timer, the network or the surroundings keeps the invariant of the two ends and their two queues, as long as nothing reaches a session that waits for the trust store, payloads fit and counters are far from their limit |
| `Protocol.ReachableIsSafe` | src/main/connectivity/PeerSession.ts:142-763 | so the invariant holds after every such run of any length from two freshly started sessions |
| `Guarantees.RolesAreOpposite` | src/main/connectivity/PeerSession.ts:487-528 | two connected ends have the same role exactly when an odd number of accepted reversal decisions is in flight; otherwise one is viewer and the other sharer, also when both users ask at once |
| `Guarantees.ReversalIsConserved` | src/main/connectivity/PeerSession.ts:216-224 | while both ends are open a pending reversal is in exactly one place (request in the queue, prompt of the other user, decision in the return queue) and nothing else of that direction exists, so it is decided at most once and under its own id |
| `Settlement.DecidedAtMostOnce` | src/main/connectivity/PeerSession.ts:519-528 | over a whole orderly run a reversal request is brought at most one decision |
| `Guarantees.DeliveryIsRefusedIff` | src/main/connectivity/PeerSession.ts:280-299 | in every world that an orderly run reaches, a delivery to an open end throws if and only if it is a server hello of another device than the one expected, the caller's cancel reaching a callee that is connected already, or a media signal or diagnostics request reaching an end that waits for its trust store |
| `Guarantees.OnlyTheResponder` | src/main/connectivity/PeerSession.ts:429-460 | only the responder can be cancelled late or wait for a trust store |
| `Guarantees.MediaFindsConnectedIff` | src/main/connectivity/PeerSession.ts:530-576 | a media signal or diagnostics request finds an open receiver connected if and only if that does not wait for its trust store |
| `Guarantees.CountersMatchTheQueue` | src/main/connectivity/SessionCryptography.ts:213-250 | the secure envelopes from one end to the other carry the consecutive counters from the receiver's counter plus one to the sender's counter, under the key the receiver expects |
| `Guarantees.KeysAgree` | src/main/connectivity/PeerSession.ts:332-342 | when both ends have a cipher they hold the same session, code and intent, and crossed keys that differ by direction |
| `Guarantees.DiagnosticsResolveExactly` | src/main/connectivity/PeerSession.ts:226-252 | a resolved diagnostics request holds exactly the last records of the answering computer, as many as asked for, in order, under any interleaving of requests |
| `Settlement.UnexpiredRequestResolves` | src/main/connectivity/PeerSession.ts:226-252 | a request that was not timed out is resolved once the queues are empty and nobody has closed, with exactly the last records the other computer held when it answered |
| `Settlement.RejectedHasExpired` | src/main/connectivity/PeerSession.ts:233-236 | in an orderly run every request that an open session has rejected was timed out |
| `Guarantees.RequestsAreSettledOnce` | src/main/connectivity/PeerSession.ts:555-569 | issued request ids are the disjoint union of pending, resolved and rejected ones, and none is pending once the session is closed |
| `Settlement.OutcomesAreFinal` | src/main/connectivity/PeerSession.ts:555-569 | a diagnostics request that was resolved or rejected keeps that outcome, and its records, for the rest of an orderly run |
| `Guarantees.DrainedIsSettled` | src/main/connectivity/PeerSession.ts:394-469 | with empty queues and nobody closed the handshake is over, every diagnostics request is settled, pending reversals stand before the other user, roles are opposite, and an end waits only for a user or the trust store |
| `Transfers.AnswerBatches` | src/main/connectivity/PeerSession.ts:538-552 | an answer is cut into batches that give back its records in order, the last and no other marked complete, and holds nothing for other requests |
| `Transfers.BatchFits` | src/main/connectivity/PeerSession.ts:555-569 | a batch for a pending request never exceeds its limit, and a complete one completes exactly the answer |
| `Effects.ExpectedIsHandled` | src/main/connectivity/PeerSession.ts:344-392 | a message the state provides for never makes its handler throw, and the handler posts exactly the expected replies |
| `Quiescence.RepliesWeighLess` | src/main/connectivity/PeerSession.ts:301-569 | in every state, what a session writes while it handles a frame weighs less than the frame (hello above ready above acknowledgement above consent, ping above pong, request above decision, diagnostics request above its batches) |
| `Quiescence.RunsSettle` | src/main/connectivity/PeerSession.ts:280-299 | without user input and ticks no run from any world delivers more frames than the weight of what was queued |
| `Quiescence.Drained` | src/main/connectivity/PeerSession.ts:280-299 | delivering as long as there is something to deliver ends with both queues empty |
| `Completion.PairingCompletes` | src/main/connectivity/PeerSession.ts:180-214 | from any reached world where nobody has closed or asked to, in whatever orderly order frames are delivered and the trust store answers: the number of steps is bounded, nobody closes, and when no step is left both ends are connected in opposite roles with every request settled, or both wait for the code; the latter only if it had not been entered |
| `Consent.ConnectionNeedsApproval` | src/main/connectivity/PeerSession.ts:180-214 | against any network and in any order of events, a responder that approved, connected or wrote a grant did so after its store vouched, when it arrived, for the very hello the session holds, or its user answered the pairing prompt with exactly the code of the session |
| `PairingHistory.ConnectedWithoutGrantIff` | src/main/connectivity/PeerSession.ts:442-468 | against any network and in any order of events, a connected responder has written no grant if and only if its store vouched for the hello it took |
| `Grants.ConnectedResponderGrants` | src/main/connectivity/PeerSession.ts:442-460 | in an orderly run a connected responder has written no grant if its store vouched for the hello, and otherwise exactly one, for the other end's device, key and the agreed direction |
| `Grants.PairingByCodeIsRemembered` | src/main/connectivity/PeerSession.ts:452-460 | a responder connected by its user's code wrote that grant at one delivery or answered prompt, and unless the store was replaced since, the store trusts the other end in the agreed direction |
| `Grants.ConnectedMeansBothApproved` | src/main/connectivity/PeerSession.ts:442-451 | a connected end has recorded its own and the other end's approval, which the other end had recorded first |
| `Grants.GrantReachesTheStore` | src/main/connectivity/PeerSession.ts:452-460 | the step that writes a grant sets exactly one entry of the store: the other end's device in the agreed direction, with the key of the identity that signed the hello; no other delivery or answered prompt changes the store |
| `SessionRuns.StartedIsSound` | src/main/connectivity/PeerSession.ts:142-153 | a session as `start` leaves it meets the condition of the three results below |
| `SessionRuns.NoNonceIsUsedTwice` | src/main/connectivity/SessionCryptography.ts:213-225 | whatever happens to a session, no two frames it ever writes share key and nonce |
| `SessionRuns.EndsShareNoNonce` | src/main/connectivity/SessionCryptography.ts:197-211 | nor do the two ends ever share such a pair |
| `SessionRuns.GrantsNameThePeer` | src/main/connectivity/PeerSession.ts:452-459 | against any network every grant a session writes is for the peer and intent of its own handshake |
| `Closing.ClosedIsFinalIff` | src/main/connectivity/PeerSession.ts:453-466 | a closed session stays closed under an event if and only if the event is not the trust store's answer to a pairing still waiting for it |
| `Closing.ClosedForGood` | src/main/connectivity/PeerSession.ts:716-729 | a session that closes while no pairing waits stays closed and writes nothing, whatever happens |
| `Closing.RoleAfterTheEndIff` | src/main/connectivity/PeerSession.ts:519-528 | a closed session without a role gets one back exactly by the trust store's answer or by an accepted answer to a reversal still pending when it closed |
| `Closing.WhatClosingLeaves` | src/main/connectivity/PeerSession.ts:697-729 | closing takes the role and the prompt and rejects every pending request but leaves the pending reversal; disposing leaves role and prompt |
| `Hazards.ClosedSessionConnects` | src/main/connectivity/PeerSession.ts:452-466 | concrete run: the user enters the code and disconnects, the trust store answers, and the closed session is connected on a closed transport |
| `Hazards.SignalFindsNoConnection` | src/main/connectivity/PeerSession.ts:571-576 | concrete run: a valid media signal reaches a callee that waits for its trust store and closes it as an error |
| `Hazards.CancelComesTooLate` | src/main/connectivity/PeerSession.ts:429-440 | concrete run: the caller's cancel reaches a connected callee and closes it with a protocol error |
| `LateDecision.ClosedSessionGetsRole` | src/main/connectivity/PeerSession.ts:344-349 | concrete run: a connected callee has asked for a reversal, and the paired caller deviates and sends, in one data event, a second ready message, which is refused and closes the callee, and the accepted decision, which makes the closed callee viewer; taken in two data events, it stays without a role |
| `Oversized.InStepIffItFits` | src/main/connectivity/PeerSession.ts:639-644 | after sending a signal the sender's counter still matches the queue if and only if the frame fitted |
| `Oversized.NextFrameClosesTheReceiver` | src/main/connectivity/PeerSession.ts:254-259 | after a refused signal the next frame, whatever it is, closes the receiver as an error |
| `KeepAlive.HealthTimeoutMeansSilence` | src/main/connectivity/PeerSession.ts:626-637 | when the health check closes a session, its start and every envelope it ever heard lie more than the whole timeout back |
| `KeepAlive.SilenceIsNoticed` | src/main/connectivity/PeerSession.ts:578-584 | for any events with the ticks of the interval timer and nothing heard: a tick later than the timeout of its phase closes the session or finds it closed; the event that closed it first, if a tick, came later than the timeout, and no tick up to it came more than one interval later than that |
| `KeepAlive.AnsweringPeerIsKept` | src/main/connectivity/PeerSession.ts:471-485 | a peer heard after every tick within the timeout of the phase less one interval is never closed for its health, while pairing or connected |
| `SessionCryptography.SecureMessageCipher.constructor` | src/main/connectivity/SessionCryptography.ts:197-211 | keys of the two directions by role, counters at zero |
| `SessionCryptography.SecureMessageCipher.Encrypt` | src/main/connectivity/SessionCryptography.ts:213-225 | the counter moves on even when no envelope comes of it; the envelope is the next counter's |
| `SessionCryptography.SecureMessageCipher.Decrypt` | src/main/connectivity/SessionCryptography.ts:235-250 | a message comes out, and the counter moves, exactly for the next counter under matching key, nonce and additional data |
| `SessionCryptography.NonceInjective` | src/main/connectivity/SessionCryptography.ts:252-256 | two counters of 64 bits never give the same nonce bytes |
| `SessionCryptography.AcceptedIsPrefixOfSent` | src/main/connectivity/SessionCryptography.ts:235-250 | however the network drops, repeats, reorders or relabels envelopes, the messages accepted are the sender's in order from the next one on, with no gap and no repeat |
| `EnvelopeText.DecimalRoundTrip` | src/main/connectivity/SessionCryptography.ts:213-216 | the receiver reads back the counter the sender wrote |
| `EnvelopeText.Base64TextLength` | src/main/connectivity/SessionCryptography.ts:219-224 | the base64 text of n bytes has 4 times ceil(n/3) characters of its alphabet |
| `EnvelopeText.EnvelopeFrameLength` | src/main/connectivity/SessionCryptography.ts:219-224 | the exact length of an envelope frame, which is one line of ASCII text |
| `EnvelopeText.PlaintextBoundFitsEveryLayer` | src/main/connectivity/SessionCryptography.ts:302-314 | a plaintext of 1 to 49074 bytes passes the sender's limit, the receiver's line check and the field caps together |
| `EnvelopeText.FrameFitsIff` | src/main/connectivity/JsonLineTransport.ts:39-42 | exactly which plaintext lengths fit a frame, for every counter |
| `EnvelopeText.PlaintextBoundIsTight` | src/main/connectivity/JsonLineTransport.ts:39-42 | one byte more and a frame with a 20-digit counter is refused |
| `JsonLineTransport.Transport.constructor` | src/main/connectivity/JsonLineTransport.ts:25-33 | a fresh transport has received and written nothing |
| `JsonLineTransport.Transport.Send` | src/main/connectivity/JsonLineTransport.ts:35-46 | a message is written with its newline and counted if and only if the transport is open and the frame within the limit |
| `JsonLineTransport.Transport.HandleData` | src/main/connectivity/JsonLineTransport.ts:78-100 | the loop does exactly what the specification says for one data event, also after a line that closes |
| `JsonLineTransport.Transport.HandleLine` | src/main/connectivity/JsonLineTransport.ts:82-95 | one turn of the loop: the line leaves the buffer and is dropped if empty, refused if oversized, or parsed and counted |
| `JsonLineTransport.Transport.ParseLine` | src/main/connectivity/JsonLineTransport.ts:102-112 | a valid line is handed on; invalid data reaches no listener and closes |
| `JsonLineTransport.Transport.NotifyClosed` | src/main/connectivity/JsonLineTransport.ts:114-122 | listeners hear of the closing only the first time |
| `JsonLineTransport.Transport.SocketGone` | src/main/connectivity/JsonLineTransport.ts:31-32 | a failed or closed socket is reported once |
| `JsonLineTransport.DrainSplit` | src/main/connectivity/JsonLineTransport.ts:78-100 | a data event cut in two: the parts end where the whole does if the first leaves the connection open, else the whole closes too with the same notice and hands on at least the same lines |
| `JsonLineTransport.ChunkingIndependence` | src/main/connectivity/JsonLineTransport.ts:78-100 | for every cut of the stream into data events: it closes exactly for a line that ends the connection or a remainder over the limit, with the same notice; open, it has handed on the lines of the text and holds its remainder; closed, it has handed on the lines up to the end and never more than one event would |
| `JsonLineTransport.SameForEveryCutIff` | src/main/connectivity/JsonLineTransport.ts:82-112 | all cuts of a text hand on the same lines if and only if the line that ends the connection exceeds the limit or no valid line follows it before one that does |
| `JsonLineTransport.LineAfterTheEnd` | src/main/connectivity/JsonLineTransport.ts:82-95 | any two valid lines the first of which makes a listener close: one data event hands on both, two events only the first |
| `JsonLineTransport.LimitsAgree` | src/main/connectivity/JsonLineTransport.ts:86-91 | the sender accepts exactly the frames the receiver's line check accepts |
| `JsonLineTransport.StreamRoundTrip` | src/main/connectivity/JsonLineTransport.ts:78-112 | what the sender accepted is handed on in order for every cut of the stream |
| `JsonLineTransport.Transmit` | src/main/connectivity/JsonLineTransport.ts:35-100 | a run of sends against a run of data events: same messages, same frame and byte totals |
| `DiagnosticsHub.Hub.Prune` | src/main/diagnostics/DiagnosticsHub.ts:63-71 | the two loops drop the old records at the front and then whatever exceeds the limit |
| `DiagnosticsHub.Hub.Publish` | src/main/diagnostics/DiagnosticsHub.ts:34-46 | the record is kept and the buffer pruned |
| `DiagnosticsHub.Hub.Snapshot` | src/main/diagnostics/DiagnosticsHub.ts:48-54 | the buffer is pruned and copied |
| `DiagnosticsHub.Hub.LocalRecords` | src/main/connectivity/ConnectionManager.ts:183-188 | the last local records of the snapshot |
| `DiagnosticsHub.Replay` | src/main/diagnostics/DiagnosticsHub.ts:34-71 | the class run over any history holds what the specification of the buffer says |
| `DiagnosticsHub.BufferIsFilteredHistory` | src/main/diagnostics/DiagnosticsHub.ts:34-71 | with a clock that never goes back the buffer is the last records, up to the limit, of everything ever published inside the retention window |
| `DiagnosticsHub.BufferIsRecentSuffix` | src/main/diagnostics/DiagnosticsHub.ts:63-71 | with any clock it is a suffix of the history within the limit, whose head is in the window of the last call unless the limit has cut it |
| `DiagnosticsHub.OldHeadIff` | src/main/diagnostics/DiagnosticsHub.ts:63-71 | with any clock the head of the buffer is older than the window of the last call if and only if the limit cut more than the old records at the front and the first record it left is old |
| `DiagnosticsHub.OldRecordAtTheHead` | src/main/diagnostics/DiagnosticsHub.ts:63-71 | concrete history with a clock that goes back and an old record at the head of a full buffer |
| `DiagnosticsHub.CutTwice` | src/main/connectivity/PeerSession.ts:534-534 | cutting the provider's list again changes nothing |
| `PairedPeerStore.KeyIsInjective` | src/main/connectivity/PairedPeerStore.ts:130-132 | two grants share a key only if they agree in device and direction |
| `PairedPeerStore.ReadBackIff` | src/main/connectivity/PairedPeerStore.ts:101-124 | a written record is read back if and only if it keeps the field rules and is not from the future |
| `PairedPeerStore.Store.Load` | src/main/connectivity/PairedPeerStore.ts:40-51 | the store holds the valid unexpired records of the file, the later of two with one key winning, and rewrites a file that held others |
| `PairedPeerStore.Store.RememberInbound` | src/main/connectivity/PairedPeerStore.ts:76-87 | the grant is set for thirty days and the file written |
| `PairedPeerStore.Store.Clear` | src/main/connectivity/PairedPeerStore.ts:89-99 | every grant of the device goes, and the file is written if there was one |
| `PairedPeerStore.Store.Persist` | src/main/connectivity/PairedPeerStore.ts:134-136 | the file holds the records in the order of the map |
| `PairedPeerStore.TrustIsTheLatestGrant` | src/main/connectivity/PairedPeerStore.ts:53-61 | after any log of grants and clearings a computer is trusted exactly if its latest grant for that direction names its key, lies less than thirty days back and no clearing came after it |
| `PairedPeerStore.ReloadKeepsTrustIff` | src/main/connectivity/PairedPeerStore.ts:40-51 | after a restart exactly those are trusted who were before and whose grant is not in the future of the clock at loading |
| `PairedPeerStore.RestartKeepsTrust` | src/main/connectivity/PairedPeerStore.ts:40-51 | with a clock that never goes back a restart changes no answer |
| `PairedPeerStore.Replay` | src/main/connectivity/PairedPeerStore.ts:76-99 | the class run over any log of grants and clearings holds what the specification of the log says, and so does its file |
| `PairedPeerStore.RestartAndAsk` | src/main/connectivity/PairedPeerStore.ts:40-61 | the class run over a log and started again from its file trusts exactly whom the latest uncleared grant names, less than thirty days after it, if that grant is not in the future of the clock at loading |
| `WebRtcMediaSession.MediaSession.SendOffer` | src/renderer/src/media/WebRtcMediaSession.ts:225-236 | state up to the first suspension of an offer; sends that are suspended already stay so |
| `WebRtcMediaSession.MediaSession.OnIceCandidate` | src/renderer/src/media/WebRtcMediaSession.ts:138-147 | a candidate is labelled with the generation and sent, or queued before the description is announced |
| `WebRtcMediaSession.MediaSession.ContinueSending` | src/renderer/src/media/WebRtcMediaSession.ts:237-246 | the next stretch of a suspended send, with the generation it captured: handing over the description, announcing it, flushing the queue |
| `WebRtcMediaSession.MediaSession.FlushSignals` | src/renderer/src/media/WebRtcMediaSession.ts:282-287 | the flushing loop up to its next suspension |
| `WebRtcMediaSession.MediaSession.ConsumeSignal` | src/renderer/src/media/WebRtcMediaSession.ts:160-204 | state up to the first suspension of consuming a signal |
| `WebRtcMediaSession.MediaSession.ContinueReceiving` | src/renderer/src/media/WebRtcMediaSession.ts:206-212 | the next stretch of setting a description and adding the queued candidates |
| `WebRtcMediaSession.StepKeeps` | src/renderer/src/media/WebRtcMediaSession.ts:133-287 | every step of either end or the channel keeps the invariant, with one negotiation at a time |
| `WebRtcMediaSession.DescriptionBeforeCandidates` | src/renderer/src/media/WebRtcMediaSession.ts:225-287 | each candidate goes to the channel after the description of its generation and before the next description |
| `WebRtcMediaSession.EveryCandidateIsSentOnce` | src/renderer/src/media/WebRtcMediaSession.ts:274-287 | once an end rests it has sent each candidate exactly as often as it gathered it |
| `WebRtcMediaSession.ViewerAddsEverything` | src/renderer/src/media/WebRtcMediaSession.ts:160-223 | the viewer drops nothing and adds each candidate it takes exactly once, after the remote description of its generation was set |
| `WebRtcMediaSession.SharerDropsOnlyTheOld` | src/renderer/src/media/WebRtcMediaSession.ts:182-204 | the sharer drops only candidates older than the generation it restarted with and adds every other one exactly once |
| `OverlappingNegotiations.OrderIsKeptIff` | src/renderer/src/media/WebRtcMediaSession.ts:160-247 | in whatever state an end has come to with its signals in order: once it starts another negotiation, each candidate follows the description of its generation in every continuation if and only if a sharer has no suspended send, or a viewer no candidate still to be flushed |
| `OverlappingNegotiations.CarefulRunsKeepOrder` | src/renderer/src/media/WebRtcMediaSession.ts:160-247 | a run of one end in which every negotiation starts under that condition keeps the order throughout, whatever arrives |
| `OverlappingNegotiations.CandidateOvertakesOffer` | src/renderer/src/media/WebRtcMediaSession.ts:309-326 | concrete run: the connection fails and the sharer restarts before its first offer is acknowledged; the acknowledgement marks the new generation as announced, and its next candidate goes out before its offer |
| `PeerSession.PeerSession.constructor` | src/main/connectivity/PeerSession.ts:116-140 | a new session has the initial state |
| `PeerSession.PeerSession.Start` | src/main/connectivity/PeerSession.ts:142-153 | the timer runs and an initiator has sent its hello |
| `PeerSession.PeerSession.RespondToPrompt` | src/main/connectivity/PeerSession.ts:180-214 | new state and exception of an answered prompt, for pairing and reversal prompts, right and wrong codes, closed transport |
| `PeerSession.PeerSession.RequestReversal` | src/main/connectivity/PeerSession.ts:216-224 | new state and exception of asking for a reversal |
| `PeerSession.PeerSession.RequestDiagnostics` | src/main/connectivity/PeerSession.ts:226-252 | new state of asking for diagnostics; a failed send rejects the request |
| `PeerSession.PeerSession.RequestTimeout` | src/main/connectivity/PeerSession.ts:233-236 | the timeout rejects a pending request and no other |
| `PeerSession.PeerSession.SendMediaSignal` | src/main/connectivity/PeerSession.ts:254-259 | new state and exception of sending a media signal |
| `PeerSession.PeerSession.Disconnect` | src/main/connectivity/PeerSession.ts:261-271 | new state after disconnecting, whether or not the last message could be sent |
| `PeerSession.PeerSession.Dispose` | src/main/connectivity/PeerSession.ts:273-278 | new state after disposing |
| `PeerSession.PeerSession.HandleWireMessage` | src/main/connectivity/PeerSession.ts:280-299 | whatever is thrown while a frame is handled closes the session; otherwise the handler's state |
| `PeerSession.PeerSession.HandleClientHello` | src/main/connectivity/PeerSession.ts:301-314 | new state and exception of a client hello |
| `PeerSession.PeerSession.HandleServerHello` | src/main/connectivity/PeerSession.ts:316-330 | new state and exception of a server hello |
| `PeerSession.PeerSession.CreateSessionCipher` | src/main/connectivity/PeerSession.ts:332-342 | code and cipher from the two hellos and the agreed secret |
| `PeerSession.PeerSession.HandleSecureMessage` | src/main/connectivity/PeerSession.ts:344-392 | new state and exception of each kind of message |
| `PeerSession.PeerSession.EnterConsentPhase` | src/main/connectivity/PeerSession.ts:394-427 | new state on entering the consent phase |
| `PeerSession.PeerSession.HandleConsentDecision` | src/main/connectivity/PeerSession.ts:429-440 | new state of the other end's decision |
| `PeerSession.PeerSession.TryEstablishConnection` | src/main/connectivity/PeerSession.ts:442-460 | new state up to the suspension at the trust store |
| `PeerSession.PeerSession.ResumeEstablish` | src/main/connectivity/PeerSession.ts:460-468 | new state after the trust store has answered, in whatever phase |
| `PeerSession.PeerSession.HandlePing` | src/main/connectivity/PeerSession.ts:471-476 | new state and exception of a ping |
| `PeerSession.PeerSession.HandleReversalRequest` | src/main/connectivity/PeerSession.ts:487-503 | new state of a reversal request; a busy or unconnected end declines |
| `PeerSession.PeerSession.RespondToReversal` | src/main/connectivity/PeerSession.ts:505-517 | new state of an answered reversal prompt |
| `PeerSession.PeerSession.HandleReversalDecision` | src/main/connectivity/PeerSession.ts:519-528 | new state and exception of a reversal decision |
| `PeerSession.PeerSession.HandleDiagnosticsRequest` | src/main/connectivity/PeerSession.ts:530-553 | the batch loop sends what the specification of the batches says |
| `PeerSession.PeerSession.HandleDiagnosticsBatch` | src/main/connectivity/PeerSession.ts:555-569 | new state and exception of a batch |
| `PeerSession.PeerSession.HandleMediaSignal` | src/main/connectivity/PeerSession.ts:571-576 | new state and exception of a media signal |
| `PeerSession.PeerSession.StartKeepAlive` | src/main/connectivity/PeerSession.ts:578-584 | starts once and sets the time last heard |
| `PeerSession.PeerSession.KeepAliveTick` | src/main/connectivity/PeerSession.ts:626-637 | closes for silence or sends a ping |
| `PeerSession.PeerSession.SendSecure` | src/main/connectivity/PeerSession.ts:639-644 | the counter moves before the frame is checked; the queue grows only if the frame fits an open transport |
| `PeerSession.PeerSession.ToggleRole` | src/main/connectivity/PeerSession.ts:666-668 | viewer and sharer change places; no role becomes viewer |
| `PeerSession.PeerSession.ClearTimers` | src/main/connectivity/PeerSession.ts:697-708 | timers off and every pending request rejected |
| `PeerSession.PeerSession.TransportGone` | src/main/connectivity/PeerSession.ts:710-714 | closes once when the socket is gone |
| `PeerSession.PeerSession.CloseWithError` | src/main/connectivity/PeerSession.ts:716-729 | new state after closing, nothing if closed already |
| `PeerSession.PeerSession.RejectPendingDiagnosticRequests` | src/main/connectivity/PeerSession.ts:757-763 | every pending request is rejected and none is left |

## Left out

- Real cryptography: hashes, signatures, key agreement and AES-GCM are symbolic values; that two verification codes of six digits can coincide, and guessing a code, are not modelled.
- JSON text: messages are values with the length of their text; the field checks of the validator are kept where a message of an honest end could fail them (limits, batch size, media signals). A counter text with leading zeros is not modelled.
- Sockets, timers, files and the event loop: replaced by queues, explicit tick and timeout actions, and stored values. A failing write of the trust store, and the exception of a tick on a closed transport, are not modelled.
- Inside `PeerSession.PeerSession` the cipher and the transport are values (the cipher's counters and keys, the closed flag and the queue) instead of references to objects of their classes; `SecureMessageCipher` and `Transport` are verified separately against the same functions.
- Hello frames are assumed to fit a frame; their fields are bounded far below its size.
- The length of a diagnostics request is taken with a limit of four digits, its largest.
- Fields for display only (names, addresses, round-trip time, connection time, error texts), the periodic connection sample and the change listeners of a session.
- `PairedPeerStore`: `getAny` and `records`, which sort and filter for display.
- `WebRtcMediaSession`: the browser's peer connection, capture and codecs, the end-of-candidates mark, stopping and failing calls; the signals queued before a role is known count as still in the channel. The theorems about the two ends take one negotiation at a time; overlaps are treated for one end, in `OverlappingNegotiations`. Its suspended methods are cut into steps at every await, a connection gathers candidates once it has a local description, and what waits for a closed connection never goes on.
- KeepAlive.AnsweringPeerIsKept: an answer heard in time is its hypothesis about the peer; two ends with a bounded time from ping to pong are not put together.
- In `TwoParty` the trust store is the map of its unexpired grants, replaced when they change otherwise, and the local records are a list; `PairedPeerStore` and `DiagnosticsHub` are verified on their own.
- `ConnectionManager` (one live session at a time), `DiscoveryService`, `ConnectivityFacade`, the Electron shell, the user interface and the build scripts: they would add only easy members.
