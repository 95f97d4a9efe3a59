# A verified model of the Perun channel library

This project models the hard core of a payment-channel library for small devices
and proves properties of it:

* the streaming Solidity ABI encoder, which walks a value in four mutually
  recursive passes and writes offsets before the data they point at;
* the two-party channel protocol, from a proposal to a closed channel, with any
  number of pending updates, as one channel and as two demo channels joined by a
  network that loses, delays, repeats and misdelivers messages;
* the frame reader of the demo and the table of the remote watcher.

Everything is stated for all values, all runs and all interleavings. No fuel and
no size bounds of the model's own are used; the only size condition of the encoder
is that the encoded length fits a `usize` (32 or 64 bits, left open).

| file | content |
|---|---|
| `Bytes.dfy` | bytes, big-endian numbers, slots |
| `SolidityAbi.dfy` | the reference: `enc` of the Solidity Contract ABI Specification v0.8.17, section "Formal Specification of the Encoding" |
| `Passes.dfy`, `Serializer.dfy`, `Cost.dfy` | the value tree as serde presents it, the passes as functions, the serializer as a class with a mutable pass, and how many nodes it visits |
| `Refinement.dfy`, `Conformance.dfy`, `Decoder.dfy` | streaming equals the buffered layout; it equals the standard if and only if two families of values are absent; a decoder that follows the offsets |
| `Canonical.dfy` | what is streamed for every value, those two families included, and how to read it back |
| `Payment.dfy`, `HashLayout.dfy` | channel parameters and states, their sizes and their digests; slot by slot, the bytes that are hashed |
| `Channel.dfy`, `ChannelObjects.dfy`, `ChannelRuns.dfy` | active channels and updates as values and as objects, and whole runs of one channel |
| `Opening.dfy`, `OpeningObjects.dfy` | proposals and agreed-upon channels |
| `Verdicts.dfy` | what each operation answers, field by field, and which refusal goes with which input |
| `Demo.dfy`, `DemoObjects.dfy`, `DemoRuns.dfy`, `TwoParty.dfy` | the demo's phase machine, as a function and as an object that owns the library's objects; when its runs reach each phase and what they ask of the funder; and two of them on a network |
| `Framing.dfy`, `Watcher.dfy` | length-prefixed frames; the watcher's table under concurrency |

How to read it: a class method is tied by its `ensures` to a function on values;
the theorems are about those functions. Objects that the original updates in place are
classes with fields and arrays; the demo's channel owns the library's objects and calls
their methods.

Idealisations. A signature is unforgeable: it recovers to its signer and over its
own digest only. The digest of a state is a datatype constructor; `Payment.IdealDigest`
proves that a collision-free hash of the streamed bytes behaves the same. The
functions from parameters to channel ids and from nonce shares to nonces are
arbitrary. Sending always succeeds: the demo's bus panics instead when a message does not
fit its transmit buffer (cortex-m-demo/src/bus.rs:29-36), which could also come between
an acceptance and its installation. `U256` and `u64` carry their ranges in their types.
Where the arithmetic or an index of the original panics, a predicate says so exactly (`TransitionPanics`, `HandlePanics`, `PeerPanics`,
`CanCompute`) and the member has its negation as a precondition; runs of the demo do
not exclude panics but say what they leave behind. In the two-party model an event that
would panic does not happen; a side that has panicked is one that makes no further move.

Where code and documentation differ, the code is followed: `i128` is zero-filled
(src/abiencode/ser.rs:546), dynamic-ness is computed from the value, the guard of the
demo's `update` looks at participant 1 whoever pays, and the check in
`ProposedChannel::accept` that would refuse a second answer is commented out.

## Model

| member | source | states |
|---|---|---|
| `SolidityAbi.DynamicFollowsType` | src/abiencode/ser.rs:381-399 | in the standard a value is dynamic exactly when its type is |
| `SolidityAbi.LayoutPosition` | src/abiencode/ser.rs:400-423 | where the head and the tail of each component lie in a laid out tuple |
| `SolidityAbi.LayoutInjective` | src/abiencode/ser.rs:400-471 | components of the same shapes with the same layout are the same |
| `Serializer.Serializer.ComputeSize` | src/abiencode/ser.rs:272-298 | returns exactly the head size and the two flags, or the first error; visits every node once and writes nothing |
| `Serializer.Serializer.GetTailSize` | src/abiencode/ser.rs:340-357 | returns exactly the tail size, or the first error, and writes nothing |
| `Serializer.Serializer.SerializeNested` | src/abiencode/ser.rs:328-338 | a nested pass appends its own output to the same writer |
| `Serializer.Serializer.SerializeTupleElement` | src/abiencode/ser.rs:372-476 | what one element changes in each of the four passes, without overflow of the offset |
| `Serializer.Serializer.ElementHead` | src/abiencode/ser.rs:400-439 | a dynamic element leaves its offset, less the reduction, and moves the running offset by its whole size |
| `Serializer.Serializer.ElementTail` | src/abiencode/ser.rs:453-471 | a dynamic element writes head and tail relative to itself, a static one nothing |
| `Serializer.Serializer.SerializeElements` | src/abiencode/ser.rs:828-872 | all elements in order reach the state and output of the whole list |
| `Serializer.Serializer.Serialize` | src/abiencode/ser.rs:479-826 | every value in every pass, including the unsupported ones; the pass variant never changes |
| `Serializer.Serializer.SerializeSeq` | src/abiencode/ser.rs:751-770 | the length slot is part of the head and not of the offsets |
| `Serializer.Serializer.SerializeWord` | src/abiencode/ser.rs:494-606 | native integers take one slot in the head |
| `Serializer.Serializer.SerializeBytes` | src/abiencode/ser.rs:661-683 | fixed bytes are padded on the right to whole slots |
| `Serializer.Serializer.SerializeStr` | src/abiencode/ser.rs:623-659 | strings write their length and padded bytes in the tail only |
| `Serializer.Serializer.WritePadded` | src/abiencode/ser.rs:661-683 | the chunk loop writes the padded bytes in 32-byte slots |
| `Serializer.Serializer.WriteAligned` | src/abiencode/ser.rs:314-326 | one slot, filled on the left |
| `Serializer.ToWriter` | src/abiencode/ser.rs:248-270 | writes exactly the stream, or fails before the first slot; visits at most n(1 + d + d²) nodes |
| `Cost.VisitsBound` | src/abiencode/ser.rs:372-476 | a size pass over the head visits n nodes, head and tail size passes at most nd, the tail pass at most nd² |
| `Cost.StreamVisitsBound` | src/abiencode/ser.rs:253-268 | all passes of one encoding together visit at most n(1 + d + d²) nodes |
| `Refinement.SentinelUnobserved` | src/abiencode/ser.rs:424-439 | the head of a static subtree is the same for every starting offset, so the sentinel is never observed |
| `Refinement.SizesExact` | src/abiencode/ser.rs:272-298 | the size passes predict the length of what the writing passes emit, for every value and offset |
| `Refinement.RunningOffset` | src/abiencode/ser.rs:411-423 | the running offset is at each component what the standard defines as its position |
| `Refinement.TuplePasses` | src/abiencode/ser.rs:400-471 | head pass then tail pass over a tuple give the standard layout of its components |
| `Refinement.PassesMatchBuffered` | src/abiencode/ser.rs:253-268 | for every value, head then tail is the buffered recursive encoding |
| `Refinement.OffsetsPointAtTails` | src/abiencode/ser.rs:400-423 | every offset slot holds the place where the tail pass starts that element |
| `Refinement.StreamIsBuffered` | src/abiencode/ser.rs:248-270 | the whole stream, with and without the outer offset, is the buffered encoding |
| `Conformance.SignedAgree` | src/abiencode/ser.rs:498-551 | a signed slot is the two's complement unless it is a negative 128-bit integer |
| `Conformance.BytesAgree` | src/abiencode/as_bytes.rs:37-60 | the marker tuple encodes dynamic `bytes` as the standard does |
| `Conformance.LeavesAgree` | src/abiencode/types.rs:121-155 | leaves agree with the standard except negative 128-bit integers |
| `Conformance.Compare` | src/abiencode/ser.rs:372-476 | for every value and type, how flags, lengths and bytes compare with the standard |
| `Conformance.StreamIsAbiEncode` | src/abiencode/ser.rs:248-270 | the stream is `abi.encode` if and only if the value holds no negative int128 and no empty fixed array of a dynamic type |
| `Conformance.NegativeInt128Deviates` | src/abiencode/ser.rs:542-551 | every negative int128 is encoded differently |
| `Conformance.EmptyDynamicArrayDeviates` | src/abiencode/ser.rs:381-399 | every `T[0]` of a dynamic `T` is encoded differently |
| `Conformance.RepresentSupported` | src/abiencode/as_dyn_array.rs:29-39 | no Solidity value runs into an unsupported serde type |
| `Conformance.AbiEncodeTo` | src/abiencode/ser.rs:231-237 | the serializer, run on a Solidity value without the two exceptions, appends its `abi.encode` |
| `Decoder.RoundTrip` | src/abiencode/ser.rs:400-471 | a decoder that follows the offsets recovers every value from the standard's encoding, whatever follows in the buffer |
| `Decoder.ReadComponent` | src/abiencode/ser.rs:400-471 | each component can be read from its head slot or through its offset |
| `Decoder.AbiEncodeInjective` | src/abiencode/ser.rs:231-270 | two values of one type with the same standard encoding are equal |
| `Canonical.StreamIsCanonical` | src/abiencode/ser.rs:248-270 | for every value without exception the stream is the standard's encoding of its canonical value: an int128 read as a uint128, an empty fixed array as an empty tuple |
| `Canonical.RestoreCanon` | src/abiencode/ser.rs:542-551 | with the type at hand the value can be recovered from its canonical value |
| `Canonical.StreamRoundTrip` | src/abiencode/ser.rs:231-270 | every streamed value is decoded from its streamed bytes, negative int128 and empty arrays included |
| `Canonical.StreamInjective` | src/abiencode/ser.rs:231-270 | no two values of a type stream the same bytes, those two families included |
| `Payment.EncLenExact` | src/abiencode/ser.rs:272-298 | the closed-form length is the length of the encoding |
| `Payment.StateStreamSize` | src/channel/fixed_size_payment.rs:97-105 | `State<A, P>` streams 32(13 + 3A + AP) bytes into the hash |
| `Payment.ParamsStreamSize` | src/channel/fixed_size_payment.rs:30-39 | `Params<P>` streams 32(8 + P) bytes into the hash |
| `Payment.StateClean` | src/channel/fixed_size_payment.rs:97-105 | no state falls under the two exceptions, so its hash input is `abi.encode` |
| `Payment.StreamState` | src/abiencode/hashing.rs:33-40 | what reaches the hash function is exactly the encoding of the state |
| `Payment.StateStreamInjective` | src/channel/fixed_size_payment.rs:97-105 | different states never stream the same bytes |
| `Payment.ParamsStreamInjective` | src/channel/fixed_size_payment.rs:30-44 | different parameters never stream the same bytes |
| `Payment.IdealDigest` | src/abiencode/hashing.rs:33-40 | a hash without a collision on two states tells them apart exactly as the ideal digest does |
| `HashLayout.HashInputSlots` | src/channel/fixed_size_payment.rs:97-105 | all bytes that are hashed for a state, slot by slot and by its fields alone |
| `HashLayout.StateFieldsAt` | src/channel/fixed_size_payment.rs:97-105 | id, version and final flag (1 for final) stand at bytes 32, 64 and 160 |
| `HashLayout.AssetAt` | src/channel/fixed_size_payment.rs:236-244 | the number of assets is in slot 9 and asset `k` in slot 10 + k |
| `HashLayout.BalanceAt` | src/channel/fixed_size_payment.rs:199-203 | the balance of participant `j` in asset `k` is in slot 11 + 2A + k(1 + P) + 1 + j |
| `HashLayout.IdInputSlots` | src/channel/fixed_size_payment.rs:30-44 | all bytes that are hashed for parameters, slot by slot and by their fields alone |
| `HashLayout.ParamsFieldsAt` | src/channel/fixed_size_payment.rs:30-44 | where duration, nonce, application, the two flags in their order and each participant stand |
| `Bytes.ToBeDigit` | src/abiencode/ser.rs:552-606 | each byte of a number is its digit of that weight, the heaviest in front |
| `Channel.ChStateEncodable` | src/channel/fixed_size_payment.rs:97-105 | every state of the two-party channel is encodable on either pointer width |
| `Channel.Collect` | src/channel/channel_update.rs:189-196 | succeeds if and only if no slot is empty, and keeps every signature in its slot |
| `ChannelObjects.TotalAssets` | src/channel/fixed_size_payment.rs:248-256 | the loops compute the sum of the balances per asset |
| `ChannelObjects.CollectSlots` | src/channel/channel_update.rs:189-196 | the loop returns all signatures or the first missing index |
| `ChannelObjects.ActiveChannel.CheckValidTransition` | src/channel/active.rs:141-158 | the first of five reasons to refuse a transition, or none |
| `ChannelObjects.ActiveChannel.Update` | src/channel/active.rs:160-177 | a checked update with our signature, sent to the peers; nothing is sent on refusal |
| `ChannelObjects.ActiveChannel.HandleUpdate` | src/channel/active.rs:179-193 | a peer's update passes only with a valid transition and the actor's signature |
| `ChannelObjects.ActiveChannel.ForceUpdate` | src/channel/active.rs:195-232 | state and signatures are replaced and the watcher is told exactly those |
| `ChannelObjects.ActiveChannel.SendCurrentStateToWatcher` | src/channel/active.rs:242-251 | the watcher gets the current parameters, state and signatures |
| `ChannelObjects.ActiveChannel.CloseNormal` | src/channel/active.rs:255-259 | succeeds unless the channel is final, and sends the next version with the same balances as final, or nothing |
| `ChannelObjects.ActiveChannel.ForceClose` | src/channel/active.rs:264-292 | the register request carries the current transaction |
| `ChannelObjects.ActiveChannel.Withdraw` | src/channel/active.rs:297-324 | the withdraw request carries the current transaction |
| `ChannelObjects.ChannelUpdate.EnsureValid` | src/channel/channel_update.rs:198-209 | the weak check of version and id |
| `ChannelObjects.ChannelUpdate.Accept` | src/channel/channel_update.rs:111-137 | fills our own empty slot and sends the acceptance, or changes nothing |
| `ChannelObjects.ChannelUpdate.ParticipantAccepted` | src/channel/channel_update.rs:158-187 | fills another slot only with that participant's signature on the new state |
| `ChannelObjects.ChannelUpdate.Apply` | src/channel/channel_update.rs:211-219 | installs a fully signed next version and tells the watcher, or changes nothing |
| `ChannelRuns.LateApplicationValid` | src/channel/channel_update.rs:198-219 | in every built channel, whatever its own slot holds: when the weak check of `apply` passes, the full check against the current state holds; the result is fully signed if our own slot is ours |
| `ChannelRuns.NextKeepsInv` | src/channel/active.rs:160-251 | every operation on the channel or on any pending update keeps the invariant |
| `ChannelRuns.RunKeepsInv` | src/channel/active.rs:141-324 | so does every run |
| `ChannelRuns.HistoryGrows` | src/channel/channel_update.rs:211-219 | installed states are only extended; parameters and id stay |
| `ChannelRuns.OpeningOpens` | src/channel/agreed_upon.rs:116-226 | an answered proposal, followed by any order of signing and adding signatures after which it can be built, yields a channel at version 0 with the proposed asset and exactly the proposed balances between proposer and answerer, whose id is the hash of its parameters; the watcher gets its one transaction and the funder one request for our own share under the proposed agreement; nothing is assumed about our own slot |
| `ChannelRuns.Conservation` | src/channel/active.rs:141-158 | in every run of every built channel totals and assets are the initial ones, the id is the hash of the parameters, each slot holds a signature of its participant or, in our own slot, of us, all are valid if our own slot is ours, and the last watch request is the current transaction |
| `ChannelRuns.WatcherLogTracks` | src/channel/active.rs:195-251 | watch requests never go back, cover each version with one state, and contain whatever is registered or withdrawn |
| `ChannelRuns.FinalForever` | src/channel/active.rs:141-158 | after a final state nothing changes any more |
| `ChannelRuns.SiblingsFail` | src/channel/channel_update.rs:66-85 | applying one update makes all existing ones fail for good |
| `Opening.OwnSlotDecides` | src/channel/proposal.rs:100-126 | our signature is valid if and only if our slot holds our signer's address, which nothing checks |
| `Opening.BuiltFields` | src/channel/proposal.rs:184-247 | an answered proposal becomes exactly the proposed terms: proposer before answerer, the nonce from the two shares in this order, no application, a ledger channel and no virtual one, the proposed balances and agreement |
| `Opening.AddSignatureKeeps` | src/channel/agreed_upon.rs:142-183 | an added signature is valid for the slot it goes to |
| `Opening.SecondSignatureCompletes` | src/channel/agreed_upon.rs:185-226 | once we have signed, the next signature completes the channel |
| `Opening.OpeningRunKeeps` | src/channel/agreed_upon.rs:116-183 | in any order of `sign` and `add_signature` each filled slot holds a signature of its participant on the initial state or, in our own slot, of us |
| `Opening.BuildSignedFully` | src/channel/agreed_upon.rs:185-226 | a built channel carries valid signatures of everyone on the initial state, if our own slot is ours |
| `OpeningObjects.ProposedChannel.Accept` | src/channel/proposal.rs:100-126 | stores and broadcasts our answer |
| `OpeningObjects.ProposedChannel.ParticipantAccepted` | src/channel/proposal.rs:150-168 | stores the first answer to this proposal only |
| `OpeningObjects.ProposedChannel.Build` | src/channel/proposal.rs:184-247 | the loop yields the channel that `Opening.BuiltFields` describes field by field, or the first missing answer |
| `OpeningObjects.AgreedUponChannel.Sign` | src/channel/agreed_upon.rs:116-138 | signs the initial state once and sends the signature |
| `OpeningObjects.AgreedUponChannel.FindParticipant` | src/channel/agreed_upon.rs:168-174 | the first participant with an address |
| `OpeningObjects.AgreedUponChannel.AddSignature` | src/channel/agreed_upon.rs:142-183 | each refusal, or the signature in its signer's slot |
| `OpeningObjects.AgreedUponChannel.Build` | src/channel/agreed_upon.rs:185-226 | with all signatures: one watch request and one for our own share of the funding, as in `Verdicts.BuiltVerdict`; otherwise nothing is sent |
| `Verdicts.TransitionVerdict` | src/channel/active.rs:141-158 | exactly which transition is refused for which reason, and which is accepted |
| `Verdicts.ProposeVerdict` | src/channel/active.rs:160-177 | an own update carries the state, our signature in our slot and nothing in the other |
| `Verdicts.HandleVerdict` | src/channel/active.rs:179-193 | exactly when a peer's update is invalid, cannot be recovered, or is signed by somebody other than its actor |
| `Verdicts.AcceptVerdict` | src/channel/channel_update.rs:111-137 | exactly when accepting fails on the version, the id or an earlier acceptance, and what it fills in else |
| `Verdicts.ParticipantVerdict` | src/channel/channel_update.rs:158-187 | the seven refusals in their order, and what is filled in else |
| `Verdicts.ApplyVerdict` | src/channel/channel_update.rs:198-219 | the refusals with the first missing index, and the installed channel else |
| `Verdicts.AnswerVerdict` | src/channel/proposal.rs:150-168 | an answer to another proposal and a second answer, each refused exactly |
| `Verdicts.SignVerdict` | src/channel/agreed_upon.rs:116-138 | our signature goes to our empty slot only |
| `Verdicts.AddVerdict` | src/channel/agreed_upon.rs:142-183 | the refusals in their order, and the first slot of the recovered signer else |
| `Verdicts.BuiltVerdict` | src/channel/agreed_upon.rs:185-226 | the first missing signature, or the active channel; the funding request names our own index and the agreement |
| `Demo.NoStrandedAcceptance` | cortex-m-demo/src/channel.rs:335-367 | an acceptance is sent if and only if the same call installs that very state |
| `Demo.AcceptanceApplies` | cortex-m-demo/src/channel.rs:368-388 | our pending update is installed if and only if the peer's signature on it arrives |
| `Demo.OpeningSound` | cortex-m-demo/src/channel.rs:298-307 | a peer signature either completes the channel or changes nothing |
| `Demo.ProposalSound` | cortex-m-demo/src/channel.rs:278-292 | an answer to our proposal either yields a signed agreement or changes nothing |
| `Demo.PeerSound` | cortex-m-demo/src/channel.rs:270-399 | every peer message that does not panic keeps the invariant and the order of phases, and an error leaves no trace |
| `Demo.UpdateSound` | cortex-m-demo/src/channel.rs:173-199 | the same for payments |
| `Demo.ReplySound` | cortex-m-demo/src/channel.rs:201-268 | the same for force close, watcher and funder |
| `Demo.EventSound` | cortex-m-demo/src/channel.rs:173-399 | the same for every call that does not panic |
| `Demo.RunKeepsInv` | cortex-m-demo/src/channel.rs:143-399 | in every run, panics included and whatever our own slot holds, slots are signed and pending updates valid, or the temporary phase was left behind |
| `Demo.RunFullySigned` | cortex-m-demo/src/channel.rs:143-399 | in every run of a channel whose own slot is ours, both stored signatures are the participants' own on the stored state |
| `Demo.TemporaryExactly` | cortex-m-demo/src/channel.rs:29-43 | the temporary phase is left behind if and only if some message of the run was an update that panics on arrival |
| `Demo.UpdatePanics` | src/channel/active.rs:141-193 | exactly which messages panic: an update with the right id, version and assets whose total leaves 256 bits, a valid signed update that names no participant, or any once versions have run out |
| `Demo.RunKeepsTotals` | src/channel/fixed_size_payment.rs:248-256 | totals that fit 256 bits in the beginning fit in every later phase |
| `Demo.LifecycleForward` | cortex-m-demo/src/channel.rs:143-399 | the phase never goes back and a closed channel stays closed |
| `Demo.ActiveNeedsBoth` | cortex-m-demo/src/channel.rs:214-268 | active only after both an acknowledgement and a funder reply |
| `Demo.PaymentValid` | cortex-m-demo/src/channel.rs:173-199 | a payment moves the amount, keeps the total and everything else, and is a valid transition unless the channel is final |
| `Demo.PaymentPanics` | cortex-m-demo/src/channel.rs:180-188 | a payment panics if and only if versions have run out, or the guard lets it through and participant 0 pays more than it has or the totals do not fit |
| `Verdicts.PaymentVerdict` | cortex-m-demo/src/channel.rs:173-199 | whatever was pending: exactly which payment is refused and with what; else the message, whose state moves the amount from us to the other side, replaces the pending update |
| `Verdicts.WatcherVerdict` | cortex-m-demo/src/channel.rs:214-251 | which reply is accepted in which phase, which error the others meet, and where each leads |
| `Verdicts.FundedVerdict` | cortex-m-demo/src/channel.rs:253-268 | the same for the funder, who may answer before the watcher |
| `Verdicts.PeerVerdict` | cortex-m-demo/src/channel.rs:270-399 | which message is refused in which phase and with what; a rejection gives up the pending update |
| `Verdicts.AnsweredVerdict` | cortex-m-demo/src/channel.rs:335-367 | a peer's update is installed if and only if it is valid and signed by the peer; then channel, acceptance and watch request hold the state with both signatures in their slots |
| `Verdicts.InstalledVerdict` | cortex-m-demo/src/channel.rs:368-388 | the same for our own update, without a message to the peer |
| `Verdicts.OpenedVerdict` | cortex-m-demo/src/channel.rs:298-307 | exactly which acceptance completes the opening, and the one watch and one funding request that it sends |
| `DemoRuns.ActiveExactly` | cortex-m-demo/src/channel.rs:214-268 | a run of a signed channel becomes active if and only if an acknowledgement and a funder reply are in it, in either order |
| `DemoRuns.ClosedExactly` | cortex-m-demo/src/channel.rs:214-251 | a run ends closed if and only if it started so or some reply in it met a phase that it closes |
| `DemoRuns.ClosingEnds` | cortex-m-demo/src/channel.rs:233-236 | an agreed final state is closed by the first acknowledgement or dispute notification and stays as it is until then |
| `DemoRuns.ForceClosingEnds` | cortex-m-demo/src/channel.rs:237-245 | a dispute ends exactly with its acknowledgement |
| `DemoRuns.AskedExactly` | cortex-m-demo/src/channel.rs:201-212 | the funder is asked by exactly two events: a force close registers the current transaction, not as a secondary, and the completing signature asks for our share; what leads to force closing |
| `DemoRuns.FunderLogCounts` | cortex-m-demo/src/channel.rs:143-399 | in every run funding is asked for exactly once, when the channel is signed, at most one transaction is registered, and nothing is withdrawn |
| `DemoRuns.RegisteredExactly` | cortex-m-demo/src/channel.rs:201-212 | a transaction is registered in a run if and only if some force close hit the active channel while it was current |
| `DemoObjects.DemoChannel.Update` | cortex-m-demo/src/channel.rs:173-199 | on the owned library objects: new phase, error and messages of a payment; all or nothing |
| `DemoObjects.DemoChannel.ForceClose` | cortex-m-demo/src/channel.rs:201-212 | the same for force close; `DemoRuns.AskedExactly` says what is registered |
| `DemoObjects.DemoChannel.ProcessWatcherReply` | cortex-m-demo/src/channel.rs:214-251 | the same for watcher replies; `Verdicts.WatcherVerdict` says where they lead |
| `DemoObjects.DemoChannel.ProcessFunderReply` | cortex-m-demo/src/channel.rs:253-268 | the same for the funder |
| `DemoObjects.DemoChannel.ProcessParticipantMsg` | cortex-m-demo/src/channel.rs:270-399 | the same for peer messages that do not panic; the phase is moved out and always written back |
| `DemoObjects.DemoChannel.OpenProposal` | cortex-m-demo/src/channel.rs:278-292 | `participant_accepted`, `build` and `sign` on the owned proposal have the effect of the phase machine |
| `DemoObjects.DemoChannel.CompleteSignatures` | cortex-m-demo/src/channel.rs:298-307 | so have `add_signature` and `build` on the agreed-upon channel |
| `DemoObjects.DemoChannel.AnswerUpdate` | cortex-m-demo/src/channel.rs:335-367 | so have `handle_update`, `accept` and `apply` on the active channel |
| `DemoObjects.DemoChannel.CompleteUpdate` | cortex-m-demo/src/channel.rs:368-388 | so have `participant_accepted` and `apply` on the pending update |
| `TwoParty.InitInv` | cortex-m-demo/src/application.rs:361-380 | a proposal and a signed answer satisfy the two-party invariant, whatever the keys are |
| `TwoParty.BehindIsOccupied` | cortex-m-demo/src/channel.rs:335-337 | a side that is behind still waits for its own proposal, so it cannot accept another |
| `TwoParty.AcceptedIsInstalled` | cortex-m-demo/src/channel.rs:368-377 | an acceptance of our pending update comes from a side that has installed it |
| `TwoParty.NextKeepsInv` | cortex-m-demo/src/channel.rs:173-399 | every event at either side, with any message ever sent, keeps the two-party invariant |
| `TwoParty.AgreementHolds` | cortex-m-demo/src/channel.rs:173-399 | in every run, with different or equal keys, both sides install the same state per version, are at most one version apart, and create or lose no money |
| `TwoParty.CurrentStatesAgree` | cortex-m-demo/src/channel.rs:335-388 | the same for the states they are in |
| `TwoParty.SimultaneousProposalsDeadlock` | cortex-m-demo/src/channel.rs:314-334 | once both sides have proposed the same version, neither installs anything in any continuation of the run |
| `TwoParty.DeadlockReachable` | cortex-m-demo/src/channel.rs:314-334 | there is a run from the start into that deadlock |
| `TwoParty.PaymentGoesThrough` | cortex-m-demo/src/channel.rs:335-388 | from two idle sides at one state, a payment that can be computed has a run in which both install it |
| `TwoParty.ProgressPossible` | cortex-m-demo/src/channel.rs:173-399 | so from the start there is a run in which both sides get past the initial state |
| `TwoParty.FundingExact` | src/channel/agreed_upon.rs:206-215 | in every run each side asks for funding exactly once and registers at most once; it asks for its own share of the proposed channel and registers only states that it installed |
| `TwoParty.FundingAgrees` | src/channel/agreed_upon.rs:206-215 | the two sides' funding requests name different indices and the same parameters, initial state and agreement, as proposed |
| `TwoParty.DeliveryNeverPanics` | cortex-m-demo/src/channel.rs:335-388 | no message that was ever sent makes a side panic, until versions run out |
| `TwoParty.OpeningRun` | cortex-m-demo/src/channel.rs:214-307 | from the start there is a run that makes both sides active at the initial state, if the answer fits the proposal and the keys differ |
| `TwoParty.RejectionsBreakAgreement` | cortex-m-demo/src/channel.rs:389-392 | with a rejection on the network, which the demo believes unchecked, any two idle sides that can compute an update are driven apart, without any money |
| `TwoParty.BlockedRun` | src/channel/agreed_upon.rs:168-182 | with equal keys the proposer never gets past its own signature, so in no run anything but the initial state is installed |
| `TwoParty.AgreementExactly` | cortex-m-demo/src/channel.rs:173-399 | with a set of rejections on the network, agreement holds in every run if and only if the set is empty, or the opening cannot be completed, or the initial totals are too large for any update |
| `Framing.Frame` | src/wire/encoding.rs:19-34 | two big-endian length bytes that give back the length of the body, then the body |
| `Framing.Encode` | src/wire/encoding.rs:19-34 | writes exactly one frame |
| `Framing.TryRecv` | cortex-m-demo/src/application.rs:451-570 | dequeues a whole frame or nothing; fails only on a frame longer than the queue; the local buffer is long enough |
| `Framing.PollNext` | cortex-m-demo/src/application.rs:461-533 | what a poll does when the next frame has partly arrived |
| `Framing.InOrder` | cortex-m-demo/src/application.rs:451-570 | however bytes are cut up, the bodies come out in order and once each; only a body that does not fit fails, after all before it |
| `Framing.NotYetIsHonest` | cortex-m-demo/src/application.rs:461-533 | "not yet" means that more bytes are on their way and fit, or that all is done; never with a full queue |
| `Framing.EverythingArrives` | cortex-m-demo/src/application.rs:451-570 | enough rounds of a delivery and a poll hand out every body |
| `Watcher.VerifySigs` | examples/go-integration/perun-remote/wire.go:18-30 | true if and only if there is one valid signature per participant |
| `Watcher.TrackExactly` | examples/go-integration/perun-remote/watcher.go:54-96 | what is refused, and what the table then says of this channel and of all others |
| `Watcher.WatcherService.Watch` | examples/go-integration/perun-remote/watcher.go:45-96 | takes a verified request that is not outdated, and else leaves the table alone |
| `Watcher.WatcherService.StartDispute` | examples/go-integration/perun-remote/watcher.go:160-197 | without interference: when it fails, when it panics and when it has registered already, each exactly; the new table; else it registers the entry after taking the supplied request, never older than before |
| `Watcher.DisputeFinishes` | examples/go-integration/perun-remote/watcher.go:160-190 | three locked sections without interference end as `StartDispute` does, with the same table and the same snapshot |
| `Watcher.WatchFinishes` | examples/go-integration/perun-remote/watcher.go:54-96 | one locked section, and a thread that will withdraw for each new channel |
| `Watcher.WithdrawalFinishes` | examples/go-integration/perun-remote/watcher.go:139-147 | the withdrawal takes what is the latest by then, and always finds the channel |
| `Watcher.StepKeepsInv` | examples/go-integration/perun-remote/watcher.go:54-197 | every locked section of every thread keeps the table and all snapshots sound |
| `Watcher.LatestIsMaximum` | examples/go-integration/perun-remote/watcher.go:54-96 | in every interleaving an entry holds the largest version accepted for its channel |
| `Watcher.NeverDrops` | examples/go-integration/perun-remote/watcher.go:60-69 | entries stay, and their version never drops |
| `Watcher.DisputeSnapshot` | examples/go-integration/perun-remote/watcher.go:160-190 | a dispute registers state, signatures and account of one verified request, the newest so far, with the parameters and index that opened the channel, and not older than a supplied request for the same channel |
| `Watcher.SnapshotFullySigned` | examples/go-integration/perun-remote/watcher.go:139-190 | in a run whose accepted requests with one id have the same participants, whatever is registered or withdrawn is signed by the participants in its parameters |
| `Watcher.CollisionMixesParticipants` | examples/go-integration/perun-remote/watcher.go:59-69 | any two verified requests of different participants with one id lead to a registration that mixes them |
| `Watcher.SignedExactly` | examples/go-integration/perun-remote/watcher.go:59-190 | for any set of requests: in every run over them every snapshot is signed by its own participants, if and only if no two verified requests of the set with one id differ in their participants |
| `Watcher.OtherChannelIsNotFresher` | examples/go-integration/perun-remote/watcher.go:160-190 | the supplied request may be for another channel; then the snapshot can be older than it |
| `Watcher.FreshExactly` | examples/go-integration/perun-remote/watcher.go:160-190 | for any set of requests: in every run over them a dispute registers a version at least as new as the request it brought, if and only if that is for the same channel, or nothing is registered with it, or no verified request of the set for the channel is older |

## Left out

- Keccak, SHA3, ECDSA, key handling: ideal hash and ideal signatures stand in for them.
- Protobuf bodies and the wire forms of states and messages: messages are values. The wire round trip of `Allocation` does not hold in the original (a bare holder is written where a length is read).
- smoltcp: the socket is a bounded byte queue whose peek sees across the end of the ring buffer; the panic for a length prefix split by that end is not modelled.
- Framing.TryRecv: asks for a receive queue of at most 512 bytes, as both sockets of the demo have; with a longer one the local buffer of 510 bytes would be too short.
- ChannelObjects.TotalAssets: asks for totals within 256 bits; the original panics otherwise.
- ChannelObjects.ActiveChannel.CheckValidTransition: asks that the check does not panic; so do `Update` and `HandleUpdate`.
- ChannelObjects.ActiveChannel.CloseNormal: asks for a version that can grow and, unless the channel is final, totals within 256 bits; the original panics otherwise.
- ChannelObjects.ActiveChannel.ForceUpdate: has no rollback, because sending to the watcher cannot fail at present.
- ChannelObjects.ChannelUpdate.EnsureValid: at version 2^64 - 1 it refuses; a release build then compares with 0, which no update has, and a build with overflow checks panics.
- Demo.NoStrandedAcceptance: takes it that sending succeeds; a bus that panics on a full buffer can strand an acceptance.
- Demo.TemporaryExactly: leaves out the panics of such a bus.
- OpeningObjects.ProposedChannel.Accept: asks for a participant other than the proposer; for the proposer the original indexes out of range.
- DemoObjects.DemoChannel.Update: asks that the checked arithmetic succeeds; `Demo.PaymentPanics` says exactly when it does not.
- DemoObjects.DemoChannel.ProcessParticipantMsg: asks that the message does not panic; `Demo.UpdatePanics` and `Demo.TemporaryExactly` say when it does and what then happens.
- Watcher.WatcherService.StartDispute: whether the final state of a supplied request can be registered on-chain is a parameter.
- TwoParty.AgreementHolds: the network carries only messages this code sends. `ChannelUpdateRejected` is never sent by the demo; `TwoParty.AgreementExactly` says what happens with it.
- Watcher: publishing to the on-chain watcher and its order, the unlocked read of the latest transaction for a final state, and the network calls of the adjudicator.
- Values with a bare dynamic marker outside the bytes tuple: refined by the buffered layout, but they are no Solidity values.
- Reject messages of proposals and updates by the library, withdrawal authorisations, trace and explain output, buttons, LEDs, main loops, the Go funder, control service and wallet: input/output or easy members.
