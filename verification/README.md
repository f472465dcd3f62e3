# Verified model of the WebRTC SFU and its peer

The system forwards tiled point-cloud video and audio between clients. A *peer* takes frames from a
local application over UDP, sends them over WebRTC tracks, and hands received fragments back. The
*SFU* forwards the tracks of each client to all the others and switches between the qualities of a
tile on request. This project models the parts of both programs that carry state and proves what they
keep, over all inputs, runs and interleavings.

## What is modelled

**The track registry of the SFU.** `Registry` is a state machine over the global maps `trackLocals`
and `trackQualities`, the list of peers, the senders of each connection and the decisions per track.
A step is one section that runs under its locks. The synchronization of the peers is cut into a visit,
one step per added track and the offer, because `addQualityTrack`, closing and the start of receivers
need not wait for `listLock`. Senders and tracks are objects with identity. `RegistryInvariant` and
`RegistrySteps` hold the invariant and its preservation, `RegistryRuns` what follows for every run,
`RegistryRetry` the retry chain, `RegistryPauses` what an attempt makes of paused tracks.
`Reregistration` is about the registration of a client that is known already, and `Reconnection` and
`ReconnectionRuns` about runs in which clients register any number of times.
`PeerConnections` and `SFU` are the same state as classes whose methods update it in place; each
method is proved to do the step it stands for, so every interleaving of them is a run of the machine.
`Registration` collects the facts about the loops of the registration block, and `RegistryEffects` what the
steps do to single IDs and what comes of it at the peers.

**Quality messages.** `Text`, `Numbers`, `TrackID`, `Signaling` and `QualityMessage` go from the websocket
text to the decisions and from there to each tile; `QualityRuns` is about decisions with other steps in between.

**Outgoing sequence numbers.** `SequenceNumbers` is the interceptor's counter and a machine of any
number of streams that switch tracks while packets arrive; `Forwarding` ties the streams to the senders
of the registry.

**The priority lock.** `PriorityLock` is the lock's three mutexes and its wait group with any number of
threads; a step is one call on one of the four.

**From payload to consumer.** `Wire` is the byte layout, `WireLayout` the same layout byte by byte,
`Payloader` the two payloaders, `Reassembly` the byte-counting reassembly, `ReassemblyRounds` what it does
with fragments that overlap, `Mailbox` the slot per stream with its condition wait that is not checked
again, `ProxyConnection` the object with its maps and byte buffers on the heap, and `EndToEnd` puts them
together.

## Assumptions

- In `RegistryRuns` the IDs of the clients that register are distinct. `ReconnectionRuns` does without
  that, up to tracks that were announced again, and `Reregistration` says exactly when nothing is lost. A
  client publishes only IDs it declared, at qualities 0 and above, and at most one callback per ID and
  quality is under way. A published negative quality would make a paused track and a present one
  indistinguishable to `setTrackQuality`.
- A client announces all its tiles at each of its qualities, as the registration loops do.
- Pion's `AddTrack`, `RemoveTrack` and `ReplaceTrack` succeed; `RemoveTrack` takes the sender out of
  `GetSenders`; the stream bound to a sender survives `ReplaceTrack`. Making and setting an offer may
  fail in the machine, and in the attempts of `SFU` when they are told so.
- Datagrams that reach the reassembly have offsets and lengths inside their frame and buffer, and
  their tile and quality have a condition variable.
- `Wait` on the wait group is the guard that the counter is zero.

## Results where the code does not do what one might expect

- A paused track (negative quality) does not stay paused: an attempt to synchronize adds it again at
  quality 0 with another sender. `RegistryPauses.AttemptEndsPauses` is exact: a decision survives if and
  only if it is not negative.
- The registration of a known client replaces stored tracks without telling the senders
  (`Reregistration.ReconnectLosesVideo`). It keeps the invariant if and only if nothing it announces is
  received or under way (`RegistrationKeepsInvIff`); a callback that was under way even puts its older
  track back (`CallbackPutsOldTrackBack`). The next callback for the track repairs it
  (`ReconnectionRuns.CallbackRepairs`).
- Video IDs never leave `trackLocals` (`RegistryRuns.VideoNeverLeaves`).
- Counting bytes is right if and only if no two counted fragments overlap
  (`ReassemblyRounds.CompletionRightIff`); a fragment that arrives twice completes a frame with a byte
  missing (`Reassembly.DuplicateCompletesWrongly`) or makes the count overshoot, and then the frame never
  completes (`OvershotNeverCompletes`).
- Two consumers of one stream crash (`Mailbox.SafeIffOneEach`).
- The comment at sfu/main.go:323 speaks of 5 seconds; the code waits 50 milliseconds. The model follows
  the code in having another attempt later, without time.

## Model

| member | source | states |
|---|---|---|
| `RegistryRuns.SendersCarryDecisions` | sfu/main.go:191-223 | in every reachable state, for any number of peers and any interleaving of the locked sections, a registered video sender has a decision q and carries the stored track of quality q if q >= 0 and nil if q < 0; the only exception is an (ID, q) whose own `OnTrack` has stored its track and not yet updated the senders |
| `RegistryRuns.AudioSendersCarry` | sfu/main.go:338-348 | likewise for audio: a registered audio sender carries the track its client has in `trackLocals`, except between `addTrack` and `updateClientTrackState` |
| `RegistryRuns.NoLoopbackNoDoubles` | sfu/main.go:257-293 | no sender carries a track of its own peer, and each sender that carries a track is the one registered for that ID, so there is at most one per ID |
| `RegistryRuns.NoOwnRegistered` | sfu/main.go:280-286 | no peer has a sender registered for its own audio or declared video IDs, whether or not their callbacks have run |
| `RegistryRuns.MapsAgree` | sfu/main.go:146-159 | every track is stored under its own ID, and every video ID in `trackLocals` has a track of quality 0 |
| `RegistryRuns.NeverAddsMissing` | sfu/main.go:162-188 | whenever a synchronization may call `addNewTrackForPeer`, the track it looks up is there, with the ID asked for |
| `RegistryRuns.VideoNeverLeaves` | sfu/main.go:641-673 | in every run a video ID that is in `trackLocals` stays there, since only the audio branch removes |
| `RegistryRuns.StepInv` | sfu/main.go:115-367 | every locked section keeps the invariant of maps, senders, registrations and decisions, also in the middle of a synchronization |
| `RegistryRuns.RunInv` | sfu/main.go:115-367 | so every run of any length and interleaving keeps it |
| `RegistryRuns.SyncResult` | sfu/main.go:232-317 | when an attempt has visited the last peer, the IDs of the active senders of every listed peer are exactly the keys of `trackLocals` minus its own, and it asks for no retry |
| `RegistryRuns.SyncForgetsPauses` | sfu/main.go:243-245 | when all listed peers are in sync, none of their decisions is negative |
| `RegistryPauses.AttemptEndsPauses` | sfu/main.go:239-293 | over an attempt that has gone past an open peer, with whatever can happen in between: a video track keeps its decision and its registered sender if and only if the decision was not negative, and then carries the same; a paused one is decided for quality 0, another sender carries a track of its ID, and the old sender stays on the connection with nothing |
| `RegistryPauses.RunMidway` | sfu/main.go:232-317 | how far an attempt under way has got with each listed peer, at every moment of it |
| `RegistryPauses.PausedReachable` | sfu/main.go:204-208 | a reachable state with a paused track |
| `RegistryRuns.SecondAttemptQuiet` | sfu/main.go:289-293 | attempts after a synchronization with nothing changed add no sender and leave every listed peer as it is, except that closed peers are dropped |
| `RegistryRuns.CleanNothing` | sfu/main.go:248-255 | a visit of a peer that is in sync removes nothing and finds nothing to add |
| `RegistrySteps.AddQualityInv` | sfu/main.go:146-159 | `addQualityTrack` keeps the invariant although it can run between the tracks a synchronization adds |
| `RegistrySteps.UpdatedQuality` | sfu/main.go:350-367 | `updateClientTrackStateQuality` ends the exception: each peer then carries the stored track of its decision, with the same senders |
| `RegistrySteps.UpdatedAudio` | sfu/main.go:338-348 | `updateClientTrackState` ends the exception for audio |
| `RegistrySteps.RegisterInv` | sfu/main.go:552-575 | registering a new client keeps the invariant |
| `RegistrySteps.AddInv` | sfu/main.go:289-293 | adding a missing track to the visited peer keeps the invariant: it becomes the one sender for its ID and leaves the list of tracks to add |
| `RegistrySteps.VisitInv` | sfu/main.go:239-290 | what a visit keeps and what it finds missing together are exactly the tracks the peer is to be sent |
| `RegistryInvariant.DecideInv` | sfu/main.go:191-223 | `setTrackQuality` keeps a peer's senders, registrations and decisions in agreement, whatever the ID and quality |
| `RegistryInvariant.CleanWired` | sfu/main.go:242-255 | removing the senders of tracks that are gone leaves the other registrations with their senders and tracks |
| `RegistryRetry.AttemptsAccounted` | sfu/main.go:232-336 | in every run in which nobody registers or closes, each retry over a closed peer has dropped exactly one closed peer, the open peers keep their order, and every attempt begun is a retry, a failure, a success or under way |
| `RegistryRetry.RetryChainEnds` | sfu/main.go:319-336 | with k closed peers and no failing offer, k + 1 attempts that have ended contain a success |
| `RegistryRetry.Removed` | sfu/main.go:234-237 | taking the closed peer at a position off the list lowers the count of closed peers by one and keeps the open ones in order |
| `Reregistration.RegistrationKeepsInvIff` | sfu/main.go:552-575 | registering any client, known or new, keeps the invariant, and so all that follows from it for later runs, if and only if nothing that is announced is decided for at a listed peer, registered there as audio, or under way in a callback |
| `Reregistration.RegistrationKeepsCarriersIff` | sfu/main.go:552-575 | right after a registration every sender, video and audio, carries what it should if and only if no listed peer receives what is announced, unless its callback is under way |
| `Reregistration.CallbackPutsOldTrackBack` | sfu/main.go:669-673 | a callback that was under way when its track was announced again puts its older track into every sender decided for it, and no exception is left |
| `Reregistration.ReconnectLosesVideo` | sfu/main.go:559-573 | a reachable state in which the registration of a known client leaves a viewer on a track that is no longer the stored one |
| `ReconnectionRuns.GoBut` | sfu/main.go:115-367 | every run in which clients register any number of times keeps the invariant up to the tracks announced again whose callback has not completed since |
| `ReconnectionRuns.SendersCarryUnlessOwed` | sfu/main.go:191-223 | in every such run a registered video sender carries what its decision says, unless a callback for that ID and quality is under way or owed |
| `ReconnectionRuns.CallbackRepairs` | sfu/main.go:669-673 | a callback that stores its track and later updates the senders, whatever comes in between short of another announcement of the track, leaves every listed peer that decided for it on the stored track, whatever registrations came before |
| `ReconnectionRuns.AudioCallbackRepairs` | sfu/main.go:639-640 | likewise for audio |
| `ReconnectionRuns.AllRepaired` | sfu/main.go:552-575 | when nothing is owed any more the full invariant holds again |
| `ReconnectionRuns.SyncResultAnyway` | sfu/main.go:232-317 | the result of a finished attempt does not depend on client IDs being distinct |
| `ReconnectionRuns.NoDoublesAnyway` | sfu/main.go:257-293 | nor does it that what a sender carries is foreign and carried by the one registered sender for its ID |
| `ReconnectionRuns.NeverMissingAnyway` | sfu/main.go:162-188 | nor that a track to be added is there |
| `RegistrySteps.AnnouncingInv` | sfu/main.go:552-575 | after any registration the state is as right as if the callbacks for everything announced were under way |
| `SFU.SFU.AddTrack` | sfu/main.go:116-130 | stores the track under its ID in `trackLocals` and changes nothing else |
| `SFU.SFU.AddQualityTrack` | sfu/main.go:146-159 | stores the track at its quality, keeping the other qualities and IDs |
| `SFU.SFU.RemoveTrack` | sfu/main.go:133-144 | exactly the ID of the track leaves `trackLocals`, whoever has or has not a sender for it, and nothing else changes |
| `RegistryEffects.RemoveAudioRemoves` | sfu/main.go:133-144 | after every `removeTrack` the ID is not in `trackLocals`, every other ID has the track it had, and no other part of the state has changed |
| `RegistryEffects.RemovedIsSentToNobody` | sfu/main.go:641-643 | after a removal, in every run in which nothing stores the ID again: it stays out of `trackLocals`, and an attempt that has gone over the list leaves no listed peer with a sender that carries it or is registered for it |
| `RegistryEffects.StoredIsSentToAll` | sfu/main.go:289-293 | an ID in `trackLocals` stays there in every run that does not remove it, and an attempt that has gone over the list leaves every listed peer that did not declare it with a sender that carries it |
| `RegistryEffects.AddVideoStores` | sfu/main.go:670-672 | the ID has the track of its callback, every other ID keeps its own, and nothing else changes |
| `RegistryEffects.AddAudioStores` | sfu/main.go:634-639 | likewise for audio |
| `RegistryEffects.AddQualityStores` | sfu/main.go:146-159 | the ID has the track at that quality; every other pair of ID and quality is available if and only if it was, with the track it had; nothing else changes |
| `RegistryEffects.RegistrationStores` | sfu/main.go:560-572 | after a registration exactly the qualities below the announced number have become available for exactly the declared tiles, and `trackLocals` has gained the audio and, if there is any quality, the tiles |
| `RegistryEffects.AnnouncedIsOwn` | sfu/main.go:280-286 | whatever a client announces is among the IDs that its own peer is never sent |
| `RegistryEffects.OwnSpelled` | sfu/main.go:280-286 | those are its audio ID and the video IDs of the tiles it declared, and no others |
| `RegistryEffects.AnnouncedIsAdopted` | sfu/main.go:208-211 | a decision of a peer for an available quality of a track it has a decision for is adopted |
| `RegistryEffects.RegisteredPeer` | sfu/main.go:554-574 | the new peer is the last of the list, the others are as they were, and it has no sender, registration or decision yet |
| `SFU.SFU.Register` | sfu/main.go:552-575 | the nested loops leave exactly the maps of the registration step: for each declared tile and each quality below the announced number, and for no other ID and quality, one new track of its own that nobody carries; and the peer, with the client's number and tiles, at the end of the list |
| `SFU.SFU.AnnounceTile` | sfu/main.go:560-572 | the inner loop stores one new track for each quality from 0 up to the announced number, all different, for one tile, and only quality 0 also in `trackLocals` |
| `Registration.AllTracksEach` | sfu/main.go:560-568 | a list of stored tracks, all different, whose pairs of ID and quality are those of the two loops leaves exactly the declared tiles available at exactly the announced qualities, with a track of its own each |
| `Registration.AllMerged` | sfu/main.go:155-158 | storing the announced tracks one by one gives the union of the old map and what they are by themselves, the new track winning |
| `Registration.AllZeros` | sfu/main.go:569-571 | and `trackLocals` gains exactly the announced tracks of quality 0 |
| `SFU.SFU.StartVideo` | sfu/main.go:646-669 | the callback reads tile and quality from the ID the client sent and stores a new track, as the step of the machine says |
| `SFU.SFU.StartVideoLocal` | sfu/main.go:670-672 | the callback for quality 0 puts its track into `trackLocals`, as the step says |
| `SFU.SFU.StartAudio` | sfu/main.go:634-639 | the audio callback puts its track into `trackLocals`, as the step says |
| `SFU.SFU.UpdateClientTrackState` | sfu/main.go:338-348 | the loop replaces the track of every sender registered for the ID, at every listed peer and nowhere else |
| `SFU.SFU.UpdateClientTrackStateQuality` | sfu/main.go:350-367 | the loop replaces it exactly where the decision is that quality |
| `SFU.SFU.SetTrackQuality` | sfu/main.go:191-223 | the state after it is the decision step on that one peer; all other peers keep theirs |
| `SFU.SFU.VisitPeer` | sfu/main.go:239-287 | the visit of an open peer removes the senders of gone tracks and returns the IDs that need not be added |
| `SFU.SFU.AddNewTrackForPeer` | sfu/main.go:162-188 | a new sender, shared with nobody, carries the track found and is registered, with decision 0 for video |
| `SFU.SFU.AddMissing` | sfu/main.go:289-293 | the loop over `trackLocals` adds all missing tracks, each found |
| `SFU.SFU.AttemptSync` | sfu/main.go:232-317 | an attempt is a run of synchronization steps; if it asks for no retry, all listed peers are in sync, none is closed and the list is the old one; if it does and no offer failed, exactly one peer, a closed one, has left the list and the others keep their order |
| `SFU.SFU.SignalPeerConnections` | sfu/main.go:226-336 | the retry chain ends after at most one attempt more than there are closed peers, with all peers in sync and the list reduced to the open peers in order |
| `SFU.SFU.DropPeer` | sfu/main.go:234-237 | the closed peer leaves the list, and only it |
| `SFU.SFU.SetTrackQualities` | sfu/main.go:729-742 | the nested loops over rows and fields apply exactly the decisions the message makes, in order; what they are for any text is `LastNumberDecides` and `NoNumberKeepsDecision` |
| `SFU.SFU.ReceiveText` | sfu/main.go:699-742 | a websocket text whose second part is the number 7 applies the decisions of its third part; any other type does not touch the registry |
| `PeerConnections.PeerConnection.RemoveGone` | sfu/main.go:239-255 | the loop over the senders, in any order, removes exactly those whose track is gone and collects the IDs of all that were active |
| `PeerConnections.PeerConnection.CollectOwn` | sfu/main.go:257-286 | the IDs of the receivers, whatever quality they were sent at, and of the declared tracks are counted as existing |
| `PeerConnections.PeerConnection.AddNewTrack` | sfu/main.go:162-188 | one connection after `addNewTrackForPeer` |
| `PeerConnections.PeerConnection.SetTrackQuality` | sfu/main.go:200-222 | one connection after `setTrackQuality` |
| `PeerConnections.PeerConnection.UpdateTrack` | sfu/main.go:344-346 | one connection after `updateClientTrackState` |
| `PeerConnections.PeerConnection.UpdateTrackQuality` | sfu/main.go:358-363 | one connection after `updateClientTrackStateQuality` |
| `PeerConnections.AllSeen` | sfu/main.go:242-255 | when all senders have been seen, those of gone tracks and their registrations are exactly what is missing |
| `TrackID.BaseOfSent` | sfu/main.go:262-276 | whatever its quality, the track a client sends counts under the ID of its tile |
| `TrackID.PartsOfSent` | sfu/main.go:632-661 | the callback recovers client, tile and quality from the ID |
| `TrackID.IDsTell` | sfu/main.go:163-164 | the split at `_` tells audio from video IDs, and names the client |
| `TrackID.PartsOfVideo` | sfu/main.go:561 | a video ID consists of the parts `video`, the client and the tile, separated by `_` |
| `TrackID.PartsOfAudio` | sfu/main.go:556 | an audio ID of the parts `audio` and the client |
| `TrackID.VideoIDInjective` | sfu/main.go:561 | different tiles of different clients have different IDs |
| `QualityMessage.LastWriterWins` | sfu/main.go:191-223 | of the decisions in a list each known track ends at the last one that is negative or available, otherwise keeps its quality |
| `QualityMessage.DecideAllKeeps` | sfu/main.go:200-222 | decisions for unknown tracks are ignored: the known tracks and the registrations stay the same |
| `QualityMessage.DecideAllInv` | sfu/main.go:191-223 | after any list of decisions the senders still carry what the decisions say |
| `QualityMessage.DecisionsOfRows` | sfu/main.go:729-741 | the decisions read from any message are those its rows mean, tile k getting the k-th field; a field that is no number shifts none of the others |
| `QualityMessage.MessageMeans` | sfu/main.go:729-741 | rows written into a message, with any text in the place of the client, are read back as they are meant |
| `QualityMessage.NamesTileIff` | sfu/main.go:734 | the ID made of the text in the place of the client and a position names a tile if and only if the text is the formatted number of its client and the position is the tile |
| `QualityMessage.MessageSettlesTiles` | sfu/main.go:727-742 | for every message text: a tile ends at the last quality listed for it, in a row that names its client, that is a number and negative or available, and is unchanged if there is none |
| `QualityMessage.NoNumberKeepsDecision` | sfu/main.go:735-739 | for every message: if no row of its client has a number of at most 64 bits in the field of the tile, the tile keeps its decision; an empty field, a lone sign or any character that is no digit and no leading sign is no number |
| `QualityMessage.LastNumberDecides` | sfu/main.go:727-742 | the last row of its client with a number in the field of the tile decides, with leading zeros and signs read as usual, if the number is negative or an available quality |
| `QualityMessage.TwoRows` | sfu/main.go:729-731 | rows are separated by `;` and fields by `,` |
| `Numbers.ParseIntIff` | sfu/main.go:735 | a text is a number if and only if it is a sign or none and then at least one digit and nothing else, and its value is the sum of its digits times their powers of ten, negated after a minus sign, whatever zeros it begins with |
| `Numbers.LeadingZero` | sfu/main.go:735 | a zero in front changes no value |
| `Numbers.AtoiIff` | sfu/main.go:735 | `Atoi` fails exactly for texts that are no such numbers and for numbers outside -2^63 to 2^63 - 1 |
| `Numbers.NoNumber` | sfu/main.go:735-739 | so it fails for the empty text, a lone sign, and any text with another character in it |
| `Numbers.ParseUintIs` | peer/signaling.go:46-47 | with its error ignored `ParseUint` gives 0 for texts that are not made of digits, and otherwise the value, at most 2^64 - 1 |
| `Numbers.ItoaSpelled` | sfu/main.go:734 | a formatted number is made of digits without leading zeros after a minus sign if it is negative, and is worth the number |
| `QualityRuns.LastAdoptedWins` | sfu/main.go:191-223 | between two synchronizations, with any other steps and decisions in between, the decision for a track is the last one adopted for it, each judged by the qualities available at its time |
| `QualityMessage.RowSettles` | sfu/main.go:731-741 | one row moves the tiles of its client only, each by its own field |
| `Signaling.FrameRoundTripIff` | peer/signaling.go:45-56 | the framed text is parsed back to the same packet if and only if the message contains no `@` |
| `Signaling.ParseParts` | peer/signaling.go:45-48 | any three parts without `@` are read as two numbers and a message, further ones are ignored, and fewer make the receiver panic |
| `Signaling.PartsOfFrame` | peer/signaling.go:56 | a framed packet consists of its two numbers and the parts of its message, separated by `@` |
| `Text.SplitJoin` | peer/signaling.go:45 | splitting loses nothing |
| `Text.JoinSplit` | sfu/main.go:729-731 | parts without the separator come back from their join |
| `Text.ParseItoa` | sfu/main.go:735 | a formatted number is parsed back to itself, negative ones included |
| `SequenceNumbers.LocalStream.Write` | sfu/sequence_number_interceptor.go:43-50 | the k-th packet of a stream is given number k modulo 2^16 |
| `SequenceNumbers.NumbersOfEachStream` | sfu/sequence_number_interceptor.go:43-50 | in any run of packets, bindings, track switches and removals of any number of streams, the k-th packet of each stream goes out with number k modulo 2^16, whatever track and number it came with |
| `SequenceNumbers.NoJumpAtSwitch` | sfu/sequence_number_interceptor.go:45-48 | numbers increase by one from packet to packet, also over a switch, as section 5.1 of RFC 3550 asks |
| `SequenceNumbers.SendsWhatItCarries` | sfu/main.go:676-685 | said of the events alone: a stream has sent, in order, exactly the packets whose track is the one that the last binding or switch of its sender before them gave it, with no removal since |
| `SequenceNumbers.SentIffGivenLast` | sfu/main.go:676-685 | one packet: it goes out on a stream, behind what that sent before and with the number of its count modulo 65536, if and only if its track was given last to the sender; every other stream has sent what it had |
| `SequenceNumbers.CarriesLastGiven` | sfu/main.go:204-216 | after any run a sender carries exactly what it was given last |
| `Forwarding.NumberingUndisturbed` | sfu/sequence_number_interceptor.go:43-50 | in every run of the registry together with arriving packets, the k-th packet of the stream of each sender goes out with number k modulo 2^16 |
| `Forwarding.StepInducesEvents` | sfu/main.go:204-216 | every step of the registry is for the streams a run of bindings, switches and removals: it sends nothing and every stream goes on with its next number |
| `Forwarding.SwitchingKeepsNumbering` | sfu/main.go:204-216 | after a switch to an available quality the stream of that sender goes on with the same next number and carries the track of that quality |
| `Forwarding.SendsWhatSendersCarry` | sfu/main.go:676-685 | in every run of the registry together with packets, each stream has sent, in order, exactly the packets of the tracks that its sender carried, as a sender of a listed peer, when they arrived |
| `Forwarding.PacketGoesTo` | sfu/main.go:676-685 | a packet goes out once on each sender of a listed peer that carries its track, with the next number of the stream modulo 65536, and on no other |
| `Forwarding.ViewerSeesDecision` | sfu/main.go:204-216 | while no callback of the decided quality is under way, what goes out on the sender that a viewer has for a tile are the packets of the stored track of the quality it decided for, and none after a negative decision |
| `Forwarding.CarryingAt` | sfu/main.go:204-216 | what a stream carries is what the sender of the listed peer carries |
| `PriorityLock.Safety` | peer/priority_lock.go:28-51 | in every reachable state at most one thread holds `dataMutex`, at most one `nextToAccess`, at most one low-priority thread is past `lowPriorityMutex`, and the wait group counts the high-priority threads between `Add` and `Done`, so it is never negative |
| `PriorityLock.BoundedOvertaking` | peer/priority_lock.go:28-51 | in every run, however many threads, from the `Add` of a high-priority thread to its `Done` at most one low-priority request enters the critical section, and none that had not passed the wait |
| `PriorityLock.OvertakingReached` | peer/priority_lock.go:28-46 | a run in which one does enter |
| `PriorityLock.EntriesSpendPastWait` | peer/priority_lock.go:30 | low-priority entries while a high-priority thread is counted are exactly those that had passed the wait before |
| `PriorityLock.SomeThreadCanStep` | peer/priority_lock.go:28-51 | no deadlock: whenever a request is pending some thread can make a step |
| `PriorityLock.EveryRunServesAll` | peer/priority_lock.go:28-51 | every run of a finite batch is finite, and one that cannot be continued has served every request once and left the lock as it was made |
| `PriorityLock.RunAccounts` | peer/priority_lock.go:28-51 | each step uses up one unit of a measure, and each entry serves one request |
| `PriorityLock.PriorityPreferenceLock.Lock` | peer/priority_lock.go:28-34 | the calls in their order, one at a time: `lowPriorityMutex` is taken if it is free, the wait passes if nobody is counted, `nextToAccess` and `dataMutex` are taken if they are free, and `nextToAccess` is released; each is the step of the machine, or blocks and changes nothing |
| `PriorityLock.PriorityPreferenceLock.Unlock` | peer/priority_lock.go:36-39 | releases `dataMutex` and then `lowPriorityMutex`; neither call can block |
| `PriorityLock.PriorityPreferenceLock.HighPriorityLock` | peer/priority_lock.go:41-46 | the thread is counted, without blocking, then `nextToAccess` and `dataMutex` are taken if they are free, and `nextToAccess` is released |
| `PriorityLock.PriorityPreferenceLock.HighPriorityUnlock` | peer/priority_lock.go:48-51 | releases `dataMutex`, and then the thread is no longer counted; neither call can block |
| `Payloader.PointCloudPayloader.Payload` | peer/packet.go:52-78 | the buffers hold exactly the fragments of the frame, each in a new buffer, and the frame number moves on modulo 2^32 |
| `Payloader.AudioPayloader.Payload` | peer/packet.go:92-114 | likewise for audio |
| `Payloader.Split` | peer/packet.go:53-75 | the loop both share makes one buffer per fragment and no other |
| `Payloader.FragmentsPartition` | peer/packet.go:52-78 | the fragments are consecutive, non-empty, at most 1172 bytes with their header, as many as the length divided by the chunk size rounded up, and concatenate to the frame |
| `Payloader.FragmentAt` | peer/packet.go:56-74 | fragment k has the stream, the client number, the number and the length of the frame in its header, starts k chunks into the frame, and has a chunk of its bytes or those that are left |
| `WireLayout.EncodeLayout` | peer/packet.go:61-70 | a fragment as bytes: client, frame number, frame length, offset and length as little-endian words at 0, 4, 8, 12 and 16, for a tile its number at 20 and quality at 24, then the data |
| `Payloader.CountIsCeiling` | peer/packet.go:56-75 | the loop runs for fragment k if and only if k is below the rounded-up quotient |
| `Payloader.FrameNumbersDistinct` | peer/packet.go:76 | two calls share a frame number if and only if they are a multiple of 2^32 calls apart |
| `Payloader.PayloadRecoveredIff` | peer/packet.go:53-55 | the fragments give back the payload if and only if it is shorter than 2^32 bytes |
| `Wire.ParseEncode` | peer/proxy_connection.go:165-192 | a fragment behind its type word is parsed back to the same fields and payload bytes, whatever follows it; what the bytes are is said apart in `WireLayout` |
| `WireLayout.TileLayout` | peer/proxy_connection.go:165-192 | a datagram that begins with the bytes 1, 0, 0, 0 is a fragment of a tile, with the header words at 4 to 20, tile and quality at 24 and 28, and the data from 32 |
| `WireLayout.AudioLayout` | peer/proxy_connection.go:208-229 | one that begins with 2, 0, 0, 0 is a fragment of audio, with the data from 24 |
| `WireLayout.OtherLayout` | peer/proxy_connection.go:165-244 | one that begins with anything else is neither |
| `WireLayout.DatagramLayout` | peer/proxy_connection.go:95-99 | a datagram that is sent has 1300 bytes: the type word, and from 4 on the buffer from the offset on, as far as both reach, and zeros |
| `WireLayout.SendTilePacket` | peer/proxy_connection.go:262-264 | the bytes sent for a tile, each by its position, beginning with 1, 0, 0, 0 |
| `WireLayout.SendAudioPacket` | peer/proxy_connection.go:266-268 | likewise for audio, beginning with 2, 0, 0, 0 |
| `Wire.WireRoundTrip` | peer/proxy_connection.go:95-99 | from payloader through a reused receive buffer and `sendPacket` to the parser, stale bytes and zero padding included, the fragment is the same |
| `Wire.SendPacket` | peer/proxy_connection.go:95-99 | the datagram is the type word, the bytes from the offset on as far as they fit, and zeros |
| `Wire.Read32OfLE32` | peer/packet.go:62-68 | a little-endian word is read back |
| `Reassembly.ReassemblyExact` | peer/proxy_connection.go:175-207 | for any frames cut into any disjoint pieces, delivered in any order and interleaving: the byte count of each unfinished frame is the number of its bytes that arrived, no slice is out of range, and the completed frames are exactly the fully covered ones, once each, with their original bytes |
| `Reassembly.CompletesAtLastFragment` | peer/proxy_connection.go:193-206 | a packet completes its frame exactly when it brings the last missing bytes |
| `Reassembly.FullMeansEveryByte` | peer/proxy_connection.go:195 | the count reaches the length if and only if every single byte has arrived |
| `Reassembly.DuplicateCompletesWrongly` | peer/proxy_connection.go:192-195 | a concrete fragment that, delivered twice, completes a frame of which a byte is missing |
| `ReassemblyRounds.ReassemblyPaints` | peer/proxy_connection.go:175-207 | for all fragments of sent frames, with any overlaps and repetitions: the count and the bytes of each unfinished frame are those of the fragments counted since it was last taken for complete, and each completion has exactly the bytes they cover, and zeros |
| `ReassemblyRounds.CompletionRightIff` | peer/proxy_connection.go:192-206 | a packet completes its frame exactly when the 32-bit count reaches the length; it does so with every byte arrived and without a wrap of the count if and only if the lengths of the counted fragments add up to it and no two of them overlap |
| `ReassemblyRounds.EveryByteIffNoOverlaps` | peer/proxy_connection.go:193-195 | fragments whose lengths add up to that of the frame bring every byte if and only if no two overlap; where every byte has arrived, overlaps make the count larger than the length |
| `ReassemblyRounds.OverlapMissesByte` | peer/proxy_connection.go:192-206 | a frame taken for complete although two counted fragments overlap has a byte that did not arrive, and a zero in its place |
| `ReassemblyRounds.OvershotNeverCompletes` | peer/proxy_connection.go:193-206 | a count that has overshot the length never completes the frame, whatever follows, until it wraps around |
| `ReassemblyRounds.FullDeliveryOutcome` | peer/proxy_connection.go:193-206 | a frame of which every byte has arrived but that was never completed has overlapping fragments and a count that has overshot; without overlaps it was completed |
| `ReassemblyRounds.PaintIsOriginalIff` | peer/proxy_connection.go:187-192 | what is handed on is the original if and only if the bytes that did not arrive are zero |
| `Mailbox.MailboxSafe` | peer/proxy_connection.go:274-307 | with one consumer per stream no run indexes an empty slot, no consumer is parked over a full slot, and the frames handed out are in order of completion, none twice, each the latest completion of its stream when it is taken |
| `Mailbox.NextEffects` | peer/proxy_connection.go:274-290 | a section of a consumer hands out exactly what is in the slot, and empties it; over an empty slot it parks, or crashes when it had been woken; all else stays the same |
| `Mailbox.NoneLost` | peer/proxy_connection.go:195-206 | in every run, however many consumers there are, the last completed frame of each stream has been handed out or is still in its slot |
| `Mailbox.SafeIffOneEach` | peer/proxy_connection.go:274-307 | waiting without checking again is safe in all runs if and only if no two consumers share a stream |
| `Mailbox.SharedStreamCrashes` | peer/proxy_connection.go:279-286 | a run in which two consumers of one stream are woken by one frame and the second finds the slot empty |
| `Mailbox.DeliveredFramesWereSent` | peer/proxy_connection.go:175-207 | every frame a consumer gets was sent on its stream, byte for byte, and none is got twice |
| `Mailbox.FramesOfRun` | peer/proxy_connection.go:160-243 | what is reassembled depends on the packets only, not on when consumers call |
| `ProxyConnection.ProxyConnection.ReceivePacket` | peer/proxy_connection.go:163-243 | one datagram does what the arrival step of the machine does, and leaves the buffers of finished frames and of frames handed out as they are, even if it is a duplicate |
| `ProxyConnection.ProxyConnection.ReceiveTile` | peer/proxy_connection.go:175-207 | the tile branch, on the nested map and the slot of the key |
| `ProxyConnection.ProxyConnection.ReceiveAudio` | peer/proxy_connection.go:217-243 | the audio branch |
| `ProxyConnection.Fill` | peer/proxy_connection.go:181-194 | the entry found or made has the bytes at their offset, the 32-bit count raised, and its own buffer |
| `ProxyConnection.BuffersDistinct` | peer/proxy_connection.go:183-205 | unfinished frames, finished frames and consumers never share a buffer |
| `ProxyConnection.ProxyConnection.NextTile` | peer/proxy_connection.go:274-290 | one section under the mutex hands out exactly the buffer in the slot of that tile and quality, which nobody had before, and empties the slot; it parks the consumer if and only if the slot is empty |
| `ProxyConnection.ProxyConnection.NextAudioFrame` | peer/proxy_connection.go:292-307 | likewise for audio |
| `ProxyConnection.ProxyConnection.MakeConditions` | peer/proxy_connection.go:155-160 | exactly the tiles and qualities in range and the audio get a condition variable |
| `EndToEnd.EveryFrameRecovered` | peer/proxy_connection.go:175-243 | from payloaders to completed frames: when all fragments of any number of interleaved streams arrive, in any order, each non-empty payload is recovered exactly once under its stream and number, and nothing else is |
| `EndToEnd.EveryFrameRecoveredFromBytes` | peer/proxy_connection.go:163-243 | the same from the bytes of the datagrams, whatever RTP headers, stale bytes and padding surround the fragments |
| `EndToEnd.DatagramsParse` | peer/proxy_connection.go:163-192 | the fragments parsed from the datagrams are those the payloaders made, in the order of arrival |
| `EndToEnd.ConsumersGetPayloads` | peer/proxy_connection.go:274-307 | whatever is lost, each frame a consumer gets is a payload of the source of its stream |
| `EndToEnd.NoOverlap` | peer/packet.go:52-78 | different fragments of all sources have no byte of a frame in common |

## Left out

- Pion's internals, websockets, UDP sockets, HTTP, flags, logging and timers: only their effect on senders, tracks and buffers is there.
- Deadlock freedom of `listLock` with `qualitiesLock`: `setTrackQuality` takes them in the opposite order from `updateClientTrackStateQuality`, so no progress is claimed for them. Each locked section is one step.
- Peers after they have left the list: their websocket loop may still set qualities on senders that no longer forward, which the registry does not see.
- SFU.SFU.SignalPeerConnections: runs its attempts back to back and with offers that succeed; that other goroutines run between the attempts, and that offers fail, is covered by the machine in `RegistryRetry`.
- SFU.SFU.SetTrackQualities: applies all decisions of a message without other steps in between, although the locks are released after each; `QualityRuns.LastAdoptedWins` covers runs with other steps in between.
- SFU.SFU.ReceiveText: likewise; and it handles type 7 only.
- The order in which Go iterates over maps and senders: the loops take any order.
- ICE candidates, offers and answers as texts, and the pending candidates of a peer.
- Control packets from the local application, which are sent on as text with their padding.
- The Go runtime's panic on wait-group reuse, malformed packets with out-of-range offsets, and the failure path of `RemoveTrack`.
- Frame-number order at consumers: frames are handed out in order of completion, which is what is proved.
- `mtu` of the payloaders, which they ignore, and the flag for the client number, which is a parameter.
- The web page, the build files, the transcoder and the log counters in the peer's `OnTrack`.
