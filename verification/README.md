# Verified model of the Arch Go SDK

This project models the core of the Arch Network Go SDK in Dafny and proves what that core is for:

- **The WebSocket subscription client** (`websocket.go`) as a state machine in which callers, consumers and the single
  read loop interleave freely. Every lock-protected section, frame write, channel operation and cancellation is one
  step, so the theorems hold for every interleaving. `WebSocket.dfy` is the machine; `WebSocketRequests.dfy`,
  `WebSocketSubs.dfy` and `WebSocketEvents.dfy` are the inductive invariants of the request side, the subscription
  lists and event delivery; `WebSocketTheorems.dfy`, `WebSocketCorrelation.dfy` and `WebSocketContinuations.dfy` hold
  the results; `WebSocketCounterexamples.dfy` holds concrete runs. `WebSocketClient.dfy` has the mutable objects, each
  of whose methods is proved to do to the fields what one step of the machine does to the state, and
  `WebSocketObjects.dfy` puts them together: a removal and a fan-out keep the objects equal to the machine's state.
- **The message compiler** (`compile.go`). `KeyTable.dfy` is the specification: the key table is the one sequence of the
  referenced keys ordered by privilege group and then byte by byte. `Compile.dfy` is the code, stage by stage, with its
  loops, proved to compute it. `CompileTheorems.dfy` says what compiling means: decompiling, privileges read from
  positions, canonical form, fixpoint.
- **The wire format and transaction assembly** (`message.go`, `transaction.go`, `loader.go`): serializers against
  inverse parsers, digests, signing, the size limit.
- **Instruction encoders and address derivation** (`system.go`, `token.go`, `loader.go`, `pda.go`): one decoder per
  program, the accounts' privileges, the bump search.
- **The whole path** (`Pipeline.dfy`): build, compile, sign, serialize; parse, expand, decode; the requests come back.

Two promises of the source's documentation do not hold of its code, and both are settled exactly:

- `WSClient`'s methods are documented as safe for concurrent use. A removal that closes a subscription's channel between
  the fan-out's snapshot and its send makes the read loop panic, on a sound connection to a node that behaves
  (`RemovalInFanOutPanics`), and nothing else does (`PanicsIffClosedInFanOut`).
- `roundTrip` is documented to correlate responses first-in first-out because the node answers in order. A channel is
  enqueued and its frame written under two different locks, and a failed write leaves its channel in the queue, so a
  well-behaved node does not suffice (`SwappedWritesMisdeliver`, `FailedWriteMisdelivers`). Responses are safe exactly
  when frames go out in enqueue order with none left out (`AnswersSafeIffWrittenInOrder`,
  `EachResponseReachesItsRequest`). Cancelling a caller never breaks the correspondence.

SHA-256, secp256k1 key parsing and BIP-322 signing are function-valued parameters. What is taken for granted about them
or about the environment is always a named hypothesis of the theorem that uses it: `SignsSoundly` (the signers in hand
sign the digest in hand, and what they return verifies), `RejectsDigests` (key parsing rejects every 32-byte string),
`FifoServer` (the node answers each written request once and in order), `WritesInOrder`. Collision resistance is never
assumed: binding results end in "equal, or here is a collision".

## Model

| member | source | states |
|---|---|---|
| WebSocketRequests.StepKeepsRequestInv | websocket.go:269-298 | every step of every actor keeps: the enqueued calls are those answered, then those teardown closed, then those still pending, in order; each response channel is untouched, or sent to once and never closed, or closed once and never sent to; the k-th response is with the k-th call |
| WebSocketSubs.StepKeepsSubInv | websocket.go:229-318 | every step keeps: each list names distinct subscriptions of its own topic; each subscription is listed and open, or off the list and closed once, or off the list with someone about to close it |
| WebSocketEvents.StepKeepsDeliveryInv | websocket.go:345-356 | every step keeps: what a subscription consumed or holds is an order-preserving part of the events read on its topic while listed, short by exactly the dropped ones |
| WebSocketTheorems.RunInv | websocket.go:332-399 | all of this holds in every state of every run |
| WebSocketTheorems.ResponseChannels | websocket.go:359-395 | in every reachable state a response channel left pending at most once, had at most one send or close in all, and the read loop's send and teardown's close find it open and empty |
| WebSocketTheorems.DoomIff | websocket.go:347-355 | along a run, the client has panicked or is bound to exactly when some removal closed a channel between an event's snapshot and its send |
| WebSocketTheorems.PanicsIffClosedInFanOut | websocket.go:345-356 | a run not stopped inside a fan-out has panicked if and only if such a removal happened; no other send or close ever panics |
| WebSocketTheorems.ClosedForGood | websocket.go:379-390 | once closed is set, pending and subs stay empty and the read error stays the same forever |
| WebSocketTheorems.SubscriptionLifecycle | websocket.go:236-256 | every subscription ever registered is in its own topic's list once with an open channel and in no other list, or removed and closed exactly once, or removed with its close still to come |
| WebSocketTheorems.AllClosedAtTheEnd | websocket.go:379-399 | when the read loop has stopped and no removal is under way, every channel ever registered is closed exactly once |
| WebSocketTheorems.ReturnsWithChannelClosed | websocket.go:177-190 | when Unsubscribe returns, with or without an error, and when Subscribe returns an error after registering, the subscription is unlisted and its channel closed |
| WebSocketTheorems.RemovedOnlyForCause | websocket.go:307-318 | a subscription leaves its list only because the connection ended or its own Unsubscribe or failed Subscribe removes it; no other call's removal touches it |
| WebSocketTheorems.LoopNeverBlocks | websocket.go:345-399 | the read loop's next step is always enabled unless it is reading the socket or has stopped |
| WebSocketTheorems.WaitersAreCovered | websocket.go:287-297 | a waiting call can return now, or the loop still holds its channel and will send to it or signal teardown; after teardown is signalled it can return at once |
| WebSocketTheorems.CallsMoveOn | websocket.go:269-318 | every other unfinished call has its next step enabled |
| WebSocketTheorems.RefusedWithTheReadError | websocket.go:272-305 | over every run, once a read has failed every Subscribe and every roundTrip begun later fails for good with that very error and leaves the client, the subscriptions and the queue history as they were |
| WebSocketTheorems.FailsAsItWasMadeTo | websocket.go:280-297 | over every run, a call returns a cancellation if and only if it was cancelled, and a write error if and only if its write failed |
| WebSocketTheorems.OtherwiseTheReadError | websocket.go:287-305 | over every run, a call that returned no response, was not cancelled and did not fail to write returned the error of the read that ended the connection, whichever branch of its select it took |
| WebSocketTheorems.WaiterIsToldWhy | websocket.go:288-296 | a waiter that finds its channel closed, or done signalled, after a failed read returns that read's error for good |
| WebSocketTheorems.ClosedChannelTells | websocket.go:288-291 | once teardown has closed a waiting call's channel the call can return by it, with the read error |
| WebSocketTheorems.UnsubscribeEndsItsOwn | websocket.go:177-190 | over every run, unsubscribing what a Subscribe returned ends with that very subscription off its topic's list and its channel closed |
| WebSocketTheorems.TheWorldIsFree | websocket.go:334-343 | while the loop reads, any event, response, unknown frame or read error may come next; a waiter may always be cancelled and a consumer may always take what is buffered |
| WebSocketTheorems.EventsInOrder | websocket.go:345-356 | in every reachable state the events given are a subsequence of those offered, all of them if none was dropped; at most 256 are buffered and none is dropped before 256 were accepted |
| WebSocketTheorems.DroppedIffOverflowed | websocket.go:350-355 | events of a subscription were dropped if and only if one was offered while its 256-slot buffer was full |
| WebSocketTheorems.WholeStreamIffNoOverflow | websocket.go:150-152 | a subscription was given every event offered to it if and only if none was offered while its buffer was full |
| WebSocketTheorems.NothingMissedAfterConfirmation | websocket.go:234-243 | a subscription whose response was read has been offered every event read on its topic from registration to confirmation and from confirmation until it was unlisted or up to now, all but an event still in hand for it; each was accepted or counted as dropped, and with no drops it has them all in order |
| WebSocketCorrelation.ResponsesGoInEnqueueOrder | websocket.go:359-376 | the k-th response read goes to the k-th call enqueued, and a call that returned a response returned that one, whoever cancelled |
| WebSocketCorrelation.NoResponseLost | websocket.go:361-366 | with a FIFO server no response ever finds the queue empty |
| WebSocketCorrelation.CorrelatedIffWritesInOrder | websocket.go:272-282 | with a FIFO server, if the requests answered so far were written in enqueue order each holds its own answer; and if no two responses are alike, only then |
| WebSocketCorrelation.EachResponseReachesItsRequest | websocket.go:266-298 | with a FIFO server and writes in enqueue order every response reaches exactly the request it answers, in every interleaving and with any set of callers cancelling |
| WebSocketContinuations.DoomEndsInPanic | websocket.go:350-355 | after such a removal the read loop's own sends, no more than are left of the fan-out, lead to the panic |
| WebSocketContinuations.AnswersSafeIffWrittenInOrder | websocket.go:272-282 | whatever follows, further calls and writes included, the requests written so far get their own answers if and only if they were written in enqueue order with none left out; on a connection that can read no more, if and only if the answers already read went to their requests |
| WebSocketContinuations.Settle | websocket.go:345-376 | from any healthy state the read loop can, by its own steps alone, finish its fan-out or delivery and read again |
| WebSocketContinuations.TeardownCountsDown | websocket.go:392-398 | over every run, teardown takes exactly one step per pending call and listed subscription plus one, whatever callers do meanwhile |
| WebSocketContinuations.StoppedWhenNothingLeft | websocket.go:392-398 | when none of those steps is left the loop has stopped and done is signalled, and conversely |
| WebSocketContinuations.WaiterReturns | websocket.go:287-297 | once the connection has ended, every waiting call can return with the read error, by done, after at most one step of the read loop and one of its own |
| WebSocketContinuations.NothingStuckAfterClose | websocket.go:269-399 | once the connection has ended there is no deadlock: when no caller and no part of the loop can move, the loop has stopped, every call has returned and every subscription's channel is closed exactly once |
| WebSocketCounterexamples.SwappedWritesMisdeliver | websocket.go:272-282 | a run with a FIFO server, no cancellation and no failed read or write in which a response reaches the wrong request |
| WebSocketCounterexamples.AlikeResponsesHideTheSwap | websocket.go:272-282 | a run in which two responses are swapped and, being alike, every caller still holds one equal to its own |
| WebSocketCounterexamples.FailedWriteMisdelivers | websocket.go:280-285 | a run in which a failed write sends a later request's response to the call that failed |
| WebSocketCounterexamples.RemovalInFanOutPanics | websocket.go:345-356 | a run with a FIFO server, no cancellation and no failed read or write in which one of two confirmed subscriptions to a topic is unsubscribed while an event for the other is fanned out, and the read loop panics |
| WebSocketClient.WSClient.RegisterSub | websocket.go:237-243 | registers the subscription, or refuses a closed client unchanged, exactly as the machine's Subscribe step does from any state with these fields |
| WebSocketClient.WSClient.EnqueueCall | websocket.go:272-278 | appends to pending, or refuses a closed client unchanged, exactly as the machine's Enqueue step does; refused means the call returns the read error |
| WebSocketClient.WSClient.RemoveSubscription | websocket.go:308-316 | the scan takes out the first occurrence and keeps the others in order, as the machine's RemoveSub step does |
| WebSocketClient.WSClient.Snapshot | websocket.go:347-349 | the list the machine's ReadEvent step sets out to serve |
| WebSocketClient.WSClient.TakePending | websocket.go:361-367 | takes the oldest pending channel, if any, which is the one the machine's ReadResponse step goes on to deliver to |
| WebSocketClient.WSClient.TearDown | websocket.go:380-390 | hands over all pending calls and all lists whatever the map's iteration order, leaving the client and the loop where the machine's ReadError step leaves them |
| WebSocketClient.Subscription.Offer | websocket.go:351-354 | buffers the event, or drops it exactly when 256 are buffered, and panics exactly when the machine's SendEvent step does |
| WebSocketClient.Subscription.CloseEvents | websocket.go:317 | closes the channel the first time and does nothing after, as the machine's closing steps of a removal and of teardown do |
| WebSocketClient.Subscription.Receive | websocket.go:173 | takes the oldest buffered event as the machine's Consume step does; a closed channel yields its remaining events first |
| WebSocketObjects.RemoveAndClose | websocket.go:307-318 | a whole removal takes client and subscription objects that mirror a state of the machine to objects that mirror the state two of its steps lead to, touching no other subscription |
| WebSocketObjects.SendAll | websocket.go:350-355 | the sends panic exactly if some subscription of the snapshot is closed, and take the objects where as many sends of the machine lead |
| WebSocketObjects.FanOutEvent | websocket.go:345-356 | undisturbed, snapshot and sends take the objects where a read and sends of the machine lead, and never panic |
| Compiler.MergeMetas | compile.go:24-46 | the map holds exactly the referenced keys and the payer, each with the OR of its flags over all instructions |
| Compiler.DrainKeys | compile.go:49-55 | all keys but the payer's, once each, whatever order the map was iterated in |
| Keys.LexLessIsBytewise | compile.go:56-58 | one key precedes another exactly when at the first byte in which they differ it has the smaller |
| Compiler.SortKeys | compile.go:56-58 | the same keys, each smaller than the next ones at the first byte in which they differ |
| Compiler.Partition | compile.go:60-76 | four sorted groups, each holding exactly the keys with its two flags |
| Compiler.GroupKeys | compile.go:24-88 | the groups in order make up the specified key table, and their sizes are the cardinalities of the privilege classes |
| Compiler.BuildIndex | compile.go:90-93 | every key of a duplicate-free table of at most 256 maps to its position, untruncated |
| Compiler.CompileInstruction | compile.go:97-113 | succeeds exactly when every key is known, with indices that look the keys up; otherwise names an unknown key of the instruction |
| Compiler.IndexInstructions | compile.go:90-114 | over the key table every instruction compiles, to the specified indices |
| Compiler.NewSanitizedMessage | compile.go:23-126 | returns the specified message or the overflow error, never the unknown-key error, whatever the iteration order |
| KeyTable.OrderedUnique | compile.go:49-58 | sorting distinct keys by a strict total order has one result |
| CompileTheorems.CompilesIff | compile.go:78-82 | compiles exactly when at most 256 distinct keys, at most 255 signers and at most 255 readonly non-signers |
| CompileTheorems.KeysExactlyOnce | compile.go:84-93 | the table is duplicate-free, holds exactly the referenced keys and the payer, and starts with the payer if there is one |
| CompileTheorems.PrivilegesFromPositions | compile.go:116-121 | signer and writable status read from header and position alone are exactly the OR of the key's flags, the payer forced to both |
| CompileTheorems.TableAscends | compile.go:56-76 | keys of equal privilege, the payer apart, stand in ascending byte order in the compiled table |
| CompileTheorems.DecompileInvertsCompile | compile.go:84-114 | expanding indices gives back each instruction's program, accounts in order with repeats, and data, with the merged privileges |
| CompileTheorems.CompileIsCanonical | compile.go:49-88 | permuting instructions, or metas inside them, changes neither success nor table nor header, and only permutes the compiled instructions and indices |
| CompileTheorems.CompileFixpoint | compile.go:23-126 | recompiling a decompiled message with the same payer and blockhash gives the identical message |
| Message.SerializeInstruction | message.go:44-52 | the instruction's wire format |
| Message.SerializeMessage | message.go:67-84 | the message's wire format |
| Message.MessageRoundTrip | message.go:67-84 | parsing a serialized message followed by anything gives the message and the rest |
| Message.ParseMessageSound | message.go:63-84 | whatever parses is the serialization of what it parses to, so parser and serializer are inverse both ways |
| Message.MessageRoundTripIff | message.go:39-84 | the round trip holds exactly when every count fits u32 |
| Message.MessageBytesPrefixFree | message.go:67-84 | serialization is injective and prefix-free |
| Message.SigningDigest | message.go:86-96 | the digest is 64 lowercase hex digits of the SHA-256 of the 64 lowercase hex digits of the SHA-256 of the serialized message |
| Message.MessageHashBinds | message.go:91-96 | messages with equal digests are equal or exhibit a SHA-256 collision |
| Transaction.SerializeTransaction | transaction.go:16-24 | the transaction's wire format, its signature count in one byte |
| Transaction.TransactionRoundTripIff | transaction.go:16-24 | parsing inverts serializing exactly for at most 255 signatures and a message that fits |
| Transaction.TransactionId | transaction.go:26-35 | the id is built the same way from the serialized transaction |
| Transaction.TxIDBinds | transaction.go:30-35 | transactions with equal ids are equal or exhibit a SHA-256 collision |
| Transaction.BuildAndSignTransaction | transaction.go:42-76 | computes the specified transaction or error |
| Transaction.SignerForFinds | transaction.go:53-56 | the signer used for a key is the last one listed with it, and there is one exactly if some signer has the key |
| Transaction.SignedBytesBegin | transaction.go:71-75 | the bytes of a signed transaction begin with version 0 in four zero bytes and then the number of required signatures |
| Transaction.RequiredKeysSign | transaction.go:45-59 | the first numRequiredSignatures keys of a compiled message are exactly the payer and the keys flagged as signer somewhere |
| Transaction.SignsExactlyWhenAble | transaction.go:42-76 | whatever the signing scheme, signing a compiled message succeeds exactly when for each of those keys the last signer listed with it signs the digest, and signature i is that signer's for key i; otherwise the error names the first key that fails, and whether its signer is missing or failed |
| Transaction.SignsExactlyWhenCovered | transaction.go:42-76 | if the signers in hand sign this digest soundly, it succeeds exactly when they, in any order and with repeats, cover those keys, and then signature i verifies under key i |
| Transaction.SignedTransactionCount | transaction.go:58-75 | a signed transaction has exactly the required number of signatures, at most 255 |
| Fields.FieldsRoundTrip | system.go:29-40 | every list of integers, keys, optional keys and length-prefixed strings decodes to itself |
| Fields.FieldsSound | system.go:29-40 | whatever decodes is the encoding of what it decodes to |
| Bytes.LowestByteFirst | system.go:29-35 | integers are written lowest byte first |
| SystemProgram.SystemRoundTrip | system.go:55-224 | one decoder, exact in the number of accounts, recovers every argument of the eleven builders, with seeds of any length and the base account present or omitted |
| SystemProgram.SystemDecodeSound | system.go:55-224 | only what a builder builds decodes: account keys and data are those of the decoded request |
| SystemProgram.SystemFlags | system.go:55-224 | the accounts that must sign and that may change, for each builder |
| Bytes.HexDecodesIff | system.go:42-51 | hex text decodes exactly if it is an even number of digits of either case |
| Bytes.HexIgnoresCase | system.go:42-51 | the case of the digits does not matter |
| SystemProgram.AnchorBuildersDecode | system.go:42-118 | the builders taking a txid succeed exactly on 64 hex digits and carry their bytes, and otherwise report which way the text is wrong |
| TokenProgram.AuthorityAccounts | token.go:60-69 | the authority signs exactly when no multisig signers are given; otherwise they do |
| TokenProgram.MultisigAccounts | token.go:129-139 | the multisig account followed by its members in order |
| TokenProgram.DerivedBuilders | token.go:85-301 | overwriting the discriminant, and appending the decimals, gives the derived builders exactly their own layout |
| TokenProgram.TokenRoundTrip | token.go:72-311 | one decoder, exact in the number of accounts, recovers every argument of every token builder, with optional keys and any multisig list |
| TokenProgram.TokenDecodeSound | token.go:72-311 | only what a builder builds decodes |
| TokenProgram.TokenFlags | token.go:60-311 | the accounts that must sign and that may change, for each builder |
| TokenProgram.AssociatedRoundTrip | token.go:316-342 | the associated-token builders' arguments are recovered and the two cannot be confused |
| TokenProgram.AssociatedFlags | token.go:316-342 | only the funder signs; only it and the account being created are writable |
| TokenProgram.AssociatedDecodeSound | token.go:316-342 | only what the associated builders build decodes |
| TokenProgram.AssociatedAnchorDecodes | token.go:333-342 | the anchored builder succeeds exactly on 64 hex digits, reports which way a txid is wrong, and carries the bytes |
| Loader.LoaderRoundTrip | loader.go:19-97 | one decoder, exact in the number of accounts, recovers every argument of the six loader builders |
| Loader.LoaderDecodeSound | loader.go:19-97 | only what a builder builds decodes |
| Loader.LoaderFlags | loader.go:19-97 | the program is always writable, and exactly the named keys sign |
| Loader.WriteTransactionSize | loader.go:19-32 | the size of a write transaction for any keys, payer and number of signatures |
| Loader.WriteSigners | loader.go:19-32 | with no payer or the authority paying, a write needs exactly one signature |
| Loader.WriteFitsIff | loader.go:99-123 | the one-signature write fits in 1232 bytes if and only if its payload is at most 997 bytes, and fills the limit exactly at 997 |
| Loader.ExtendBytesMaxLen | loader.go:102-123 | computes that bound by compiling and serializing an empty write |
| Pda.CreateProgramAddress | pda.go:31-54 | succeeds exactly when the seeds are within limits and the digest is off the curve; otherwise says which limit failed first |
| Pda.FindProgramAddress | pda.go:59-70 | the greatest bump in 1..255 that works, and an error exactly when none does |
| Pda.BumpIsAlways255 | pda.go:22-70 | if key parsing rejects every 32-byte input, the search succeeds exactly for at most 15 seeds of at most 32 bytes, always at 255 |
| Pda.PreimageDetermines | pda.go:41-46 | the hash preimage of an address determines exactly the program and the seeds run together |
| Pda.AddressBinds | pda.go:31-54 | equal addresses mean one program and seeds that run together alike, or a SHA-256 collision |
| Pda.SeedBoundariesAreLost | pda.go:41-46 | two different seed lists, within the limits, with the same address for every hash function, program and bump |
| Pda.AssociatedTokenAddress | pda.go:75-80 | the search over wallet, token program and mint |
| Pda.AssociatedAddressBinds | pda.go:75-80 | the hash preimage determines wallet, mint and bump; equal addresses mean equal inputs or a collision |
| ProgramIds.ProgramIdsDistinct | constants.go:51-72 | the four program ids differ pairwise |
| Pipeline.RequestRoundTrip | token.go:50-342 | one decoder for all four programs recovers the request from program, account keys and data |
| Pipeline.DecodesIffBuilt | token.go:50-342 | an instruction decodes to a request if and only if its program, account keys and data are those the request's builder builds |
| Pipeline.BuildersNeverCollide | system.go:55-224 | two requests of any builders and programs build to the same program, keys and data only if they are the same request |
| Pipeline.SignersOfRequests | compile.go:34-46 | the keys that must sign a request list are the payer and those its requests name as signing |
| Pipeline.ChangesOfRequests | compile.go:34-46 | the keys compiled as writable are the payer and the accounts its requests change |
| Pipeline.RequestPrivileges | compile.go:34-121 | signer and writable status read from header and position alone are exactly what the requests of all four programs call for |
| Pipeline.RequestsCrossTheWire | transaction.go:12-24 | any transaction carrying compiled requests, whatever its signatures, parses back to itself, and expanding and decoding its message gives the requests back in order with exactly the right privileges |
| Pipeline.RequestsSurvive | transaction.go:12-76 | requests built, compiled and signed by any scheme come back from the bytes; if the signers in hand sign soundly, they are signed exactly when the signers cover them and every signature verifies in its place |
| Pipeline.BytesBindRequests | transaction.go:16-24 | equal bytes of transactions that carry compiled requests mean one transaction and the same requests in the same order on the same blockhash, whatever the signatures |
| Pipeline.SignedBytesBindRequests | transaction.go:16-76 | so do equal signed bytes, whoever signed them and by whichever schemes |

## Left out

- The JSON-RPC client (`rpc.go`, `types.go`, `bytes.go`): HTTP and JSON plumbing over standard libraries.
- BIP-322 signing and key handling (`bip322.go`, `keys.go`): their work is in btcd's script, taproot and Schnorr
  libraries; the model keeps an abstract sign/verify pair and an x-only key function.
- SHA-256, secp256k1 key parsing and bech32m address text: function parameters.
- Dialing, socket framing, contexts and real time: a frame arriving, a read failing, a write failing and a cancellation
  are nondeterministic steps. Close only makes the read fail, so it has no step of its own.
- Frame contents: which frames decode to events, to responses or to neither is JSON decoding. The machine has a step for
  each; server-side filters are not in this repository.
- Granularity of reading: reading a frame and the locked section that follows it are one step, and so are the refusal of
  a closed client and the later unlocked read of the reason, which cannot change once the client is closed
  (`ClosedForGood`).
- Channel identity: a response channel is known by the id of its call, an events channel by the id of its subscription.
  The lock-free reads of shared slices are not modelled; the source copies every list it keeps beyond a lock.
- The subscription id stored after a successful Subscribe, and the error texts.
- Scheduling fairness: progress is stated as steps being enabled, as continuations that exist, as teardown counting down
  and as the absence of deadlock, not as eventual occurrence.
- WebSocketObjects.FanOutEvent: the objects are followed through an undisturbed fan-out; what other callers do between its
  sends is the machine's business (`PanicsIffClosedInFanOut`, `EventsInOrder`).
- WebSocketCorrelation.CorrelatedIffWritesInOrder: the converse asks for responses that differ, since alike responses can
  be swapped without anyone holding a wrong one (`AlikeResponsesHideTheSwap`).
- Compiler.SortKeys: `sort.Slice` is a library routine; it is modelled as insertion into a sequence, not in place on an
  array.
- Compiler.MergeMetas: entries updated through pointers are modelled as updates of a map value.
- Instruction builders (`system.go`, `token.go`, `loader.go`) are values built from a list of fields rather than appends
  to a buffer; overwriting the first byte of a derived builder's data is a sequence update (`Retagged`).
- `AdjustSignature`, the status records and the event filter constructors: single-branch facts.
- The program ids are data, copied from `constants.go`; their base58 spelling is not modelled.
- What the instructions do when executed (balances, authorities): that is in the node.
