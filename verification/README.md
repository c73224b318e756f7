# Chat verification: ratchet, client protocols, relay and file streams

A Dafny 4.11 model of an end-to-end encrypted chat system: the Double Ratchet of the Python
reference, the Qt client's protocol state machines, and the relay's delivery state, together
with proofs about whole runs of them. `dafny verify dfyconfig.toml` checks everything.

## What is modelled

**The ratchet** (`Crypto`, `HeaderBytes`, `Ratchet`, `Protocol`, `Sending`, `Secrecy`, `Healing`, `Replays`,
`CryptoBox`, `Dedup`, `StoreCap`).
`Ratchet.State` is the value of the reference's `State`, `Ratchet.Session` the object, updated
in place and tied to functions on the value. Cryptography is symbolic: key derivations are free
constructors, an AEAD opens only under the key, nonce, cipher and header that sealed it, and
`gen_keypair` draws an identifier never used before. `Protocol` puts two sessions and every frame
ever sent into one transition system, and `Sending` says which sends go through and what they carry. A history of ratchet epochs links the parties: the epochs
are neighbours, a receiving chain is the sender's chain advanced to the receive counter, and the
store holds exactly the unread positions passed. `Secrecy` closes an attacker's knowledge under
every derivation and says exactly which message keys a captured session reveals; `Healing` retells
that by the frames that turn the ratchet. `Replays` says what copies and altered frames do to the
reference's session, which steps before it authenticates. `CryptoBox` is the client's own session: it receives on a working
copy that is kept only once the frame has authenticated, purges the keys of older generations and caps
its store. `Dedup` puts the client's seen-set in front of it, allows any frame to be offered any number
of times, and has logins that empty the seen-set while the session comes back from disk; `StoreCap` says what
the cap can cost.

**The client** (`Gate`, `GateHistory`, `GateClient`, `GateSystem`, `Rebootstrap`, `Heartbeat`, `HeartbeatHistory`,
`HeartbeatClient`, `HeartbeatGate`, `Outbox`, `OutboxOutcomes`). The source keeps sets and maps over all peers. Each machine is
stated as functions on the record of one peer; a class with the source's fields and methods is
proved to move every peer's record as those functions say and to leave the others alone. Runs are
then taken over the records. `GateHistory`, `HeartbeatHistory` and `OutboxOutcomes` say from the list of events
alone what each step sends, queues, drops and records, and so pin every branch of the handlers. `GateSystem` joins two clients by a relay that reorders and
duplicates; `HeartbeatGate` couples the heartbeat with the gate it obeys.

**The relay** (`Relay`, `RelayHistory`, `RelayAwaits`, `LogRing`, `LogHistory`, `FileTransfer`, `Prekeys`) and **files**
(`FileStream`, `FileTransfer`, `FileIntegrity`): stored messages with one cursor per recipient, the login drain, as one
step and again cut at every await, the log ring, the chunk store with its ordered replay, the one-time
prekey pool, chunked encryption on a symbolic secretstream and the client's send and receive loops.

Clocks, random draws, socket state, what another component answers and which of several racing
calls comes first are parameters or events of the runs.

## Where the code falls short of its comments, or of a law, and exactly when

- A comment says one ping and one pong restore both directions (client/src/chatclient.cpp:5139-5140).
  `Healing.OnePingOnePong`: after both were read, from whatever state, the captured party's own chain is
  closed and its peer's is still open to the captured session; the peer's closes exactly once the peer
  is brought a frame of the chain after that (`Healing.HealsByFrames`).
- The reference steps its session before it authenticates, so a copy of a frame already read can cost
  the next one: exactly if the copy is from the current receiving chain, or its header counts no more
  positions than were received (`Replays.ReplayLosesNextFrame`). The client's session does not:
  `Dedup.DuplicationIsHarmless` holds for any duplication, with logins and empty texts, and
  `Dedup.CopyChangesNothing` for every copy, whether the seen-set stops it or not. What the seen-set
  spares the user is an error message, for all copies but those of empty texts and of frames read
  before the last login (`Dedup.CopyReportedExactly`).
- For the same reason a frame altered on the way costs the reference the genuine one, unless it is refused for
  its counters before anything moves: its key is popped, or its chain stepped, before the seal is looked at
  (`Replays.AlteredFrameCostsGenuine`). The client is not touched by it (`Dedup.AlteredFrameHarmless`).
- The purge of stored keys is commented as destroying only keys that no message can still need
  (client/src/cryptobox.cpp:260-268). A frame delayed past two turns of the ratchet is lost by it, though
  the reference would still open it: as long as the cap sheds nothing, exactly the unread frames two or
  more turns behind (`Dedup.PurgeLosesExactly`, `CryptoBox.LateFrameIsLost`, `CryptoBox.LateFrameArises`).
- A login restores which identities the peers attested, and a comment says that a peer who attested ours has its
  half in (client/src/chatclient.cpp:1038-1044). The test asks for the identity in memory, which a logout wipes
  (:1505) and which the login loads only later (:1097), so the half is not put in. Nor is it asked for: when the
  user is asked to verify, the missing half is requested exactly unless such an attestation was restored
  (`GateHistory.AsksForMissingHalf`). So for a peer without a session whose key is not the one confirmed, the
  gate stays shut after the user's confirmation until the peer attests of its own accord
  (`GateHistory.RestoredAttestationStrands`).
- The re-bootstrap one-shot ends the exchange whenever the handshakes of a run state one identity
  (`Rebootstrap.AnswersSettleInRuns`), and not in general. `Rebootstrap.SettlesExactly` says, for any
  state and any handshakes in the stash, when the relay's answers end it: after the leading handshakes
  that state the relay's key or the identity adopted last, nothing may be left, or the rest states only
  the relay's key and its own first identity and ends with it. Otherwise client and relay exchange
  requests for ever; a superseded identity followed by the current one is such a stash
  (`Rebootstrap.TwoHandshakes`). Its branch for "the relay confirmed this identity"
  (chatclient.cpp:3845-3848) cannot be reached: the enclosing test already excludes it.
- The client's file_end branch finalises whatever arrived, so a missing tail is reported as a received
  file, unlike in `decrypt_file` (`FileTransfer.FileEndFinalisesWhateverArrived`).
- A backlog above 400 batches of 50 is not drained in one login, and a live message then moves the
  cursor past the rest (`Relay.CapDecidesLoss`).
- Comments keep the cursor from moving back under a concurrent live delivery (server/server.py:789-794)
  and call the live path fail-safe towards delivery (:1718-1723). Moving the cursor forward is what loses
  frames: a login goes online before it drains its backlog, and every send is an await. A frame is handed
  over once and not passed over exactly as long as none of three steps hits it: a live delivery's cursor
  update passes it while it waits; the connection drops with the frame fetched and not sent; the drain
  sends it after a live delivery whose cursor update was still to come
  (`RelayAwaits.FrameOnceExactly`, `RelayAwaits.LiveDuringLoginLoses`). Frames arrive in id order exactly
  if no drain hands one over after a live delivery of a later one (`RelayAwaits.InOrderExactly`).
- A broadcaster pass between going online and the snapshot gives a client lines that the snapshot
  repeats; over runs that is the only way its numbers stop increasing (`LogRing.EachLineOnceInOrder`,
  `LogRing.EarlyPassRepeatsLines`).
- A ping in flight over a reconnect is watched again if the timer was still armed, a debt or a count is
  recorded for the peer, or another peer arms it. Over runs, a ping on a live socket is without a timer
  exactly if the last connect found none of these and nothing has started the timer since (`Heartbeat.UnwatchedExactly`); a ping forced on a peer that was
  sent nothing can end so (`Heartbeat.ForcedPingCanBeStranded`).
- The outbox keeps texts to a peer in order exactly as long as no text sent live overtakes a queued one
  (`Outbox.OrderLostExactlyByOvertaking`), and one can: queue offline, reconnect, send before the drain
  (`Outbox.SecondTextOvertakes`). Comments in flushOutbox and acknowledgeKeyChange call the
  send gate unilateral; the code asks for both parties, and the model follows the code.
- Re-publishing a one-time prekey id that was handed out makes it be served again
  (`Prekeys.ServedTwiceExactlyIfReadded`).

## Model

| member | source | states |
|---|---|---|
| HeaderBytes.AdInjective | server/crypto_core.py:233-236 | the associated data determines cipher tag, ratchet key and both counters below 2^32, so authenticating it authenticates the whole header |
| Crypto.AdvanceInjective | server/crypto_core.py:213-225 | two chain positions share a key only if chain and position agree |
| Ratchet.StoredKeysAt | server/crypto_core.py:285-292 | skipping stores exactly the positions passed, each with that position's message key |
| Ratchet.DecryptBound | server/crypto_core.py:305-320 | whatever the frame, one call stores at most 2 * MAX_SKIP keys |
| Ratchet.Session.Alice | server/crypto_core.py:253-259 | the first sender's initial state |
| Ratchet.Session.Bob | server/crypto_core.py:262-267 | the first receiver's initial state |
| Ratchet.Session.RatchetEncrypt | server/crypto_core.py:270-282 | the whole new state and the frame or error, including the chain already stepped when a counter no longer fits |
| Ratchet.Session.SkipUntil | server/crypto_core.py:285-292 | the skip loop equals the closed form: chain advanced, counter moved, every passed key stored; refused before any change |
| Ratchet.Session.TurnRatchet | server/crypto_core.py:295-302 | the two root steps and counters of a ratchet turn |
| Ratchet.Session.RatchetDecrypt | server/crypto_core.py:305-320 | state and result in every branch, including what stays changed after a failed authentication |
| Protocol.StepInv | server/crypto_core.py:253-320 | every send and delivery keeps the two-party invariant, also when the skip limit is raised |
| Protocol.Agreement | server/crypto_core.py:253-320 | over every run with drops, delay and reordering, a delivery returns exactly the text sent or raises the skip limit |
| Protocol.RefusedExactlyOnWideGap | server/crypto_core.py:285-287 | it raises if and only if the frame opens a gap of more than MAX_SKIP positions, readable off receiver and header |
| Protocol.EpochsAlternate | server/crypto_core.py:295-302 | the two sides' ratchet epochs are always neighbours, so no sending chain is missed as a whole |
| Protocol.SkippedKeysConserved | server/crypto_core.py:285-320 | frames read plus keys in store equals the receive positions advanced over all chains |
| Protocol.StoreIsPassedUnread | server/crypto_core.py:285-292 | the store holds a frame's key exactly when its position was passed and the frame not read |
| Protocol.MessageKeysUsedOnce | server/crypto_core.py:270-282 | no message key is used for two frames, of one party or of both |
| Protocol.MessageKeysReadOnce | server/crypto_core.py:305-320 | no message key is consumed twice in reading |
| Sending.LogIsSends | server/crypto_core.py:270-282 | over every run each party's log is, in order and one for one, its sends that could go through, with the text, cipher and nonce asked for in the header, on the frame and under the seal, numbered within its chain without gaps |
| Sending.SendRefusedExactly | server/crypto_core.py:270-282 | a send is refused if and only if there is no sending chain yet, or 2^32 frames were sent on the chain or on the one before, with the error that says which |
| Secrecy.ClosureDecided | server/crypto_core.py:205-225 | closure of a knowledge under all key derivations, stated by derivations, agrees with the recursive decision |
| Secrecy.SnapshotReveals | server/crypto_core.py:323-325 | a captured session reveals a message key, past or future, if and only if it is on the next epoch's chain, ahead on a current chain, or stored |
| Secrecy.ForwardSecrecySent | server/crypto_core.py:213-225 | at any moment of any run, no key already used to send is derivable from a snapshot and all public headers |
| Secrecy.ForwardSecrecyRead | server/crypto_core.py:305-320 | nor is any key already consumed in reading, on this chain or an earlier one |
| Secrecy.HealingBoundary | server/crypto_core.py:295-302 | on chains after the captured epoch, exactly the peer's answer chain is derivable; from the first new key pair on, nothing is |
| Secrecy.HealsExactly | client/src/chatclient.cpp:5136-5141 | own sending chain heals exactly from epoch e+2, the peer's exactly from e+3 |
| Healing.ReachesExactly | server/crypto_core.py:295-320 | over every run a party reaches an epoch if and only if it was delivered a frame of the chain before, its gap on the old chain within the limit |
| Healing.HealsByFrames | client/src/chatclient.cpp:5128-5141 | after a capture at epoch e the own chain is closed if and only if a frame of the peer's chain e+1 was delivered, the peer's if and only if the peer was delivered one of chain e+2 |
| Healing.OnePingOnePong | client/src/chatclient.cpp:5128-5141 | from every state, one ping and one pong that are read close the own chain and leave the peer's open |
| Healing.PingPongHappens | client/src/chatclient.cpp:5128-5141 | such a run, from the first exchange on |
| Secrecy.IdentityLeakExposesFirstChain | server/crypto_core.py:228-230 | the two identity keys alone expose the whole first chain and nothing after it |
| Replays.ReplayNeverYields | server/crypto_core.py:305-320 | a frame already read yields no text again |
| Replays.BehindOpensByStoreOnly | server/crypto_core.py:305-320 | once its position was passed, a frame opens with its stored key or not at all |
| Replays.CopyLeavesStateExactly | server/crypto_core.py:305-320 | a copy of a frame already read leaves the reference's session unchanged if and only if it is from a chain left behind and its header counts a gap beyond the skip limit |
| Replays.CopyOffChain | server/crypto_core.py:295-320 | what a copy from a chain left behind does: refused, or the ratchet turns towards the old key |
| Replays.ReplayLosesNextFrame | server/crypto_core.py:309-320 | after a copy the frame due next is unreadable if and only if the copy is from its chain or its header counts no more positions than were received |
| Replays.BareRatchetLosesNextFrame | server/crypto_core.py:305-320 | a concrete run of the reference in which a copy costs the next frame |
| Replays.AlteredFrameCostsGenuine | server/crypto_core.py:305-320 | an altered copy of a readable frame never yields a text, and the genuine frame can be read after it if and only if the copy was refused for its counters; otherwise its key is gone |
| CryptoBox.EnforceSkippedCap | client/src/cryptobox.cpp:300-318 | sheds just enough keys, those of the current generation only when no others are left |
| CryptoBox.PurgeUnreachableSkipped | client/src/cryptobox.cpp:273-290 | keeps exactly the current and the previous generation |
| CryptoBox.SkipTo | client/src/cryptobox.cpp:321-337 | the skip on the working copy, refused before any change, with the cap after it |
| CryptoBox.DhRatchetOf | client/src/cryptobox.cpp:340-359 | the turn on the working copy, with purge and cap |
| CryptoBox.Box.DecryptFrom | client/src/cryptobox.cpp:1619-1720 | session and text in every branch; a failing call leaves the session as it was |
| CryptoBox.DecryptTracks | client/src/cryptobox.cpp:1636-1713 | where both stores have or lack the frame's key, the client succeeds exactly if the reference does, with the same text and the same session but for keys no longer stored |
| CryptoBox.StoreBounded | client/src/cryptobox.cpp:42-60 | the store never exceeds twice the skip limit, whatever gaps the peer leaves |
| CryptoBox.KeysOnly | client/src/cryptobox.cpp:256-290 | a call stores keys of its generation only, and one that turns leaves keys of the two newest |
| CryptoBox.LateFrameIsLost | client/src/cryptobox.cpp:256-290 | a stored key survives one turn and is gone after the next |
| CryptoBox.LateFrameArises | client/src/cryptobox.cpp:256-290 | such sessions arise from the first exchange on, when its first frame is delayed |
| Dedup.Receiver.OnMsg | client/src/chatclient.cpp:3852-3894 | text frames: seen-set, session and what is shown |
| Dedup.Receiver.OnFileInit | client/src/chatclient.cpp:4264-4302 | file-key frames: the same record, shared with texts |
| Dedup.TakesExactly | client/src/cryptobox.cpp:1619-1720 | in every reachable state the session takes a frame if and only if its key is stored or its position is ahead within the limit; then it is a first copy and yields the text sent, otherwise the session stays as it was |
| Dedup.DuplicationIsHarmless | client/src/chatclient.cpp:3852-3894 | under any duplication, logins, empty texts, purges and sheds, the clients go through a run of the network that does not duplicate, and their sessions are its sessions but for keys no longer stored |
| Dedup.CopyChangesNothing | client/src/cryptobox.cpp:1647-1667 | over every run, a copy of a frame already read changes neither session nor record nor what is shown |
| Dedup.ShownExactlyOnce | client/src/chatclient.cpp:3858-3894 | what was shown is, in reading order, the non-empty texts of the frames read, which are pairwise different; the record holds those read since the last login |
| Dedup.CopyReportedExactly | client/src/chatclient.cpp:3852-3872 | a copy reaches the session, which reports it, if and only if its text is empty or it was read before the last login |
| Dedup.NewFramePasses | client/src/chatclient.cpp:3858-3872 | the guard never drops a frame not read yet |
| Dedup.StoreStaysSmall | client/src/cryptobox.cpp:42-60 | over every run the store holds at most 2000 keys, all of the two newest generations |
| Dedup.RecentAreStored | client/src/cryptobox.cpp:340-359 | while the cap sheds nothing, the client stores every key of those generations that the reference stores |
| Dedup.PurgeLosesExactly | client/src/cryptobox.cpp:256-290 | while the cap sheds nothing, a frame is taken if and only if it is unread, its gap within the limit, and its chain not two or more turns behind |
| Dedup.AlteredFrameHarmless | client/src/cryptobox.cpp:1647-1720 | the client's session and record are not touched by an altered copy of a frame it could read |
| StoreCap.CapSparesChainInUse | client/src/cryptobox.cpp:292-318 | whatever the cap sheds, over every run: while the receiver has moved along its chain by at most the cap, a frame of that chain is taken if and only if it was not read and its gap is within the limit |
| Gate.GateBookkeeping | client/src/chatclient.cpp:4487-4525 | over every history an unverified peer is pending, and a peer counted as verified attested our current identity |
| Gate.ChangeShuts | client/src/chatclient.cpp:3553-3652 | a changed key shuts the gate, and nothing counts as confirmed unless a matching verifyack was already waiting |
| Gate.NothingElseOpens | client/src/chatclient.cpp:4940-4975 | under one key only a user confirmation clears the flag and only an accepted verifyack records the peer's half |
| Gate.GateSafety | client/src/chatclient.cpp:4746-4782 | after a key change the gate is open only if the user confirmed since and a verifyack from exactly that key was accepted since |
| GateHistory.GateExactly | client/src/chatclient.cpp:3307-3444 | over every history flag, peer's half, gate, owed repetition and recorded confirmation follow from the events and what the session began with: shut exactly while the user was asked and has not confirmed since, or the peer's half is missing |
| GateHistory.OpenGateMeans | client/src/chatclient.cpp:3340-3381 | with a key in force the gate is open only if the peer was known when the session began and nothing asked the user since, or the user has confirmed since last asked and the peer's half is in, which from a logged-out start is an attestation by exactly that key |
| GateHistory.FirstContactShut | client/src/chatclient.cpp:3362-3381 | the key of a peer never met shuts the gate, until the user confirms and the peer's half is in |
| GateHistory.SendsExactly | client/src/chatclient.cpp:4487-4938 | over every history an event sends or queues an attestation if and only if it is owed, asks for one if and only if the user is asked and none is on record, and a drain sends exactly the queued ones that still name the key in force |
| GateHistory.AsksForMissingHalf | client/src/chatclient.cpp:4505-4531 | the missing half is asked for if and only if the history restored no attestation that stands in its place |
| GateHistory.RestoredAttestationStrands | client/src/chatclient.cpp:1033-1047 | a run after a login in which the missing half is never asked for |
| GateSystem.StepInv | client/src/chatclient.cpp:4116-4207 | reorder, duplication and loss of resyncs keep: who confirmed is recorded at the peer or its attestation is on its way |
| GateSystem.NoVerificationDeadlock | client/src/chatclient.cpp:4559-4740 | both confirmed, neither flagged, no verifyack in flight, queued or stashed: both gates are open, after any re-flags |
| GateSystem.GatesOpenUnaided | client/src/chatclient.cpp:4078-4207 | from every reachable state with both confirmed and neither flagged, network moves alone open both gates |
| GateClient.Client.constructor | client/src/chatclient.cpp:1022-1050 | a session starts with the confirmations, attestations and stamps restored; a peer's half is in if it attested the identity in memory at that moment |
| GateClient.Client.SendOrQueueVerifyAck | client/src/chatclient.cpp:4795-4845 | sent live or queued with the identity held now; other peers untouched |
| GateClient.Client.TryResolveBilateral | client/src/chatclient.cpp:4940-5000 | resolves exactly when pending, confirmed and attested, recording both identities |
| GateClient.Client.FlagKeyChange | client/src/chatclient.cpp:4487-4552 | shuts the gate; keeps the peer's half exactly when it attested the current identity |
| GateClient.Client.MaybeResendVerifyAck | client/src/chatclient.cpp:4907-4938 | re-sends only while one is owed |
| GateClient.Client.AcknowledgeKeyChange | client/src/chatclient.cpp:4559-4740 | the user's confirmation: flag, verifyack, owed re-send, the drain for all peers, resolution |
| GateClient.Client.OnVerifyAck | client/src/chatclient.cpp:4116-4207 | stashed with a key request, ignored or accepted, and the record afterwards |
| GateClient.Client.OnVerifyResync | client/src/chatclient.cpp:4078-4114 | re-attests only a settled verification |
| GateClient.Client.ReplayPendingFrames | client/src/chatclient.cpp:2142-2156 | the stash is taken, then every frame handled in order |
| GateClient.Client.DetectKeyChange | client/src/chatclient.cpp:3307-3438 | changed, new and already confirmed keys told apart, with what each voids |
| GateClient.Client.AdoptPeerKey | client/src/chatclient.cpp:3307-3444 | detection and the owed re-send, for one entry of the key dump |
| GateClient.Client.OnKey | client/src/chatclient.cpp:3553-3645 | a key or key_update frame, including the replay it triggers |
| GateClient.Client.FlushAcks | client/src/chatclient.cpp:2463-2568 | one drain does to every peer's verifyack queue what that peer's record says, and sends exactly those frames and key requests |
| GateClient.AsksForMissingKeys | client/src/chatclient.cpp:2471-2477 | a drain asks for a peer's key once for every entry that waits for it while the socket is up, and for no other |
| Rebootstrap.ReBootstrapConverges | client/src/chatclient.cpp:3775-3850 | any number of handshakes stating one identity cause at most one refetch, and with every request answered the stash is empty |
| Rebootstrap.AnswersSettleInRuns | client/src/chatclient.cpp:3775-3850 | and at every point of such a run, as many answers as are owed, plus one for a refetch still to come, leave nothing owed, an empty stash and the relay's key |
| Rebootstrap.SettlesExactly | client/src/chatclient.cpp:3787-3843 | from any state some number of answers ends the exchange if and only if the stash, read from its first disagreeing handshake, states only that identity and the relay's and ends with it |
| Rebootstrap.TwoHandshakes | client/src/chatclient.cpp:3787-3843 | two handshakes settle with an answer in between, and without one if and only if they agree or the first states the relay's key |
| Rebootstrap.PlainFramesPass | client/src/chatclient.cpp:3740-3850 | over every run the frames that state no identity pass on, and wait, in the order they came, none lost or repeated, and none waits once a key is held |
| Rebootstrap.AskedExactly | client/src/chatclient.cpp:3740-3843 | over every run exactly one key request goes out for each frame that came while no key was held, and one for each refetch |
| Rebootstrap.HandshakePasses | client/src/chatclient.cpp:3787-3850 | a handshake passes on if and only if it states the key held; it is stashed, with a request, if and only if there is no key or it states a new identity |
| Rebootstrap.Client.HandleMsg | client/src/chatclient.cpp:3740-3850 | stash, adopt, drop or pass on, for one peer |
| Rebootstrap.Client.HandleKey | client/src/chatclient.cpp:2142-2156 | key stored and stash replayed through the same handler |
| FileStream.ChunkCountIsFirst | server/file_crypto.py:122-133 | the number of chunks is the first read at which the announced size is reached or the file ran short |
| FileStream.EncryptFile | server/file_crypto.py:94-133 | error cases, and exactly the header and then the sealed pieces in order, only the last marked and tagged final |
| FileStream.DecryptFile | server/file_crypto.py:136-175 | what is written and how it ends, also when it raises |
| FileStream.StreamIntegrity | server/file_crypto.py:136-175 | it completes if and only if the input begins with the sender's complete chunk list, and then wrote exactly the sealed pieces |
| FileStream.RoundTripExactly | server/file_crypto.py:94-175 | decrypting what encrypt_file yields returns the file if and only if the announced size reaches into its last piece |
| FileTransfer.SendFile | client/src/chatclient.cpp:5732-5866 | refused exactly outside 1..MAX_FILE_BYTES; else ceil(size/64Ki) frames id + big-endian index + chunk |
| FileTransfer.FileStore.HandleBinary | server/server.py:1078-1128 | who may store which chunk where, and whom to forward to |
| FileTransfer.FileStore.HandleInit | server/server.py:1736-1754 | the announcer is the client logged in; a new announcement replaces the old |
| FileTransfer.FileStore.HandleEnd | server/server.py:1761-1776 | only the sender completes a transfer |
| FileTransfer.FileStore.OrderedRows | server/server.py:914-918 | the chunk rows in index order |
| FileTransfer.FileStore.Replay | server/server.py:887-924 | offered exactly to the recipient of a complete file it does not hold, reframed with the stored indices |
| FileTransfer.Receiver.BinaryMessageReceived | client/src/chatclient.cpp:5881-5933 | index check, decryption, and what is written |
| FileTransfer.Receiver.FileEndReceived | client/src/chatclient.cpp:4339-4360 | finalises a transfer still open |
| FileTransfer.StoreAndReplayDelivers | server/server.py:1583-1594 | however often and in whatever order the frames reach the relay, the replay is the sender's frame list and the receiver ends with the original bytes |
| FileTransfer.FileEndFinalisesWhateverArrived | client/src/chatclient.cpp:4339-4387 | after k frames and file_end the file reported holds exactly k pieces; it is whole if and only if all arrived |
| FileIntegrity.ReceivedExactly | client/src/chatclient.cpp:5881-5933 | for any frames whatever, with the file's key held by the sender alone: the receiver holds exactly the pieces of the frames that from the start were the sender's; it reports the file received if and only if the frames with its id begin with the sender's whole list, waits if they are a part of it, and otherwise has failed |
| FileIntegrity.EndedExactly | client/src/chatclient.cpp:4339-4387 | after file_end nothing changes any more: reported received unless it had failed, and whole if and only if every frame had come |
| FileIntegrity.StoreExactly | server/server.py:1078-1128 | over every history each stored row is exactly the last chunk for its index sent by the client that had announced the file; no frame of another client, or without login, changes anything |
| FileIntegrity.AnswersExactly | server/server.py:887-924 | a file is offered, and a chunk accepted and forwarded, exactly as announcements and closings say |
| Relay.BatchesConcatenate | server/server.py:802-834 | repeated batches concatenate to exactly the rows above the cursor, up to the cap |
| Relay.LoginDeliversAllExactly | server/server.py:1498-1514 | a login hands over everything stored for the user if and only if the cap leaves none of it behind |
| Relay.ExactlyOnceInOrder | server/server.py:1705-1727 | over every run within the cap, each stored frame reaches its recipient once, in id order, and all of them while online |
| Relay.NeverTwiceNeverBack | server/server.py:789-800 | in any run whatever, no frame arrives twice and ids only grow |
| Relay.CapDecidesLoss | server/server.py:1509-1514 | after a login and one live message nothing is missing if and only if the cap left nothing; otherwise a frame is passed over for ever |
| RelayHistory.StateExactly | server/server.py:789-834 | over every run the stored messages, who is online, and each cursor, at the last frame handed to its user, follow from the actions |
| RelayHistory.HandsExactly | server/server.py:802-834 | a login hands over, in order, exactly the messages its user sent or was sent since the last one it had, up to the cap; a stored message goes out if and only if its recipient is online; and nothing else is ever handed over |
| RelayHistory.QuietWhileOffline | server/server.py:1705-1727 | between a logout and the next login nothing is handed to the user and its cursor stays |
| Relay.Server.AdvanceCursor | server/server.py:789-800 | the cursor never moves back |
| Relay.Server.HistoryFor | server/server.py:802-834 | the first `limit` rows above the cursor the user is party to, and the new cursor |
| Relay.Server.Login | server/server.py:1453-1514 | going online and the drain, when nothing comes between |
| Relay.Server.HandleMsg | server/server.py:1675-1727 | stored, delivered live with the cursor advanced, or refused |
| RelayAwaits.FrameOnceExactly | server/server.py:1498-1514 | over every interleaving at the awaits, a stored frame is handed over at most once and never passed over if and only if no step slipped for it: overtaken by a cursor update, dropped unsent, or sent again |
| RelayAwaits.DeliveredOnceExactly | server/server.py:1715-1727 | once a recipient's drain is over, a frame up to its cursor was handed over exactly once if and only if no step slipped for it |
| RelayAwaits.FrameStep | server/server.py:802-834 | one step keeps a frame in order if and only if it does not slip for it, and no step repairs a frame |
| RelayAwaits.LiveDuringLoginLoses | server/server.py:1453-1514 | from any sane state, a live message between going online and the first query loses every waiting frame |
| RelayAwaits.InOrderExactly | server/server.py:1498-1514 | over every interleaving a recipient is handed its frames in id order if and only if no drain hands over a frame after a live delivery of a later one, or of that one |
| RelayAwaits.TasksTold | server/server.py:1705-1727 | over every interleaving a user is online exactly between going online and offline, and a live delivery awaits its cursor update exactly until that comes or is given up |
| RelayAwaits.QuietOffline | server/server.py:1498-1514 | between going offline and online again nothing is handed to a user |
| RelayAwaits.LoginUndisturbed | server/server.py:1498-1514 | a login whose drain nothing interrupts is the single step |
| LogRing.RingAlwaysContiguous | server/server.py:158-187 | the ring is always the contiguous block of the newest lines, ending at the head |
| LogRing.EachLineOnceInOrder | server/server.py:979-1034 | over every run a client sees only genuine lines and lacks only evicted ones, and their numbers strictly increase if and only if no snapshot repeated a resident line |
| LogRing.StepIncreases | server/server.py:988-1034 | one step keeps the numbers increasing if and only if it is no such snapshot, and none restores them |
| LogRing.EmptyBatchUnreachable | server/server.py:993-996 | below the head a batch is never empty |
| LogRing.SnapshotKeepsOrderExactly | server/server.py:1026-1034 | a snapshot keeps a client's numbers increasing if and only if nothing it already got is still in the ring |
| LogRing.EarlyPassRepeatsLines | server/server.py:984-1005 | a pass before the snapshot gives a line twice, for any line |
| LogHistory.LinesExactly | server/server.py:158-187 | over every run the lines numbered are exactly those not logged by the broadcaster, in order; a snapshot hands over the whole ring, a successful turn the next 200 lines above the cursor not evicted, and nothing else ever reaches a client |
| LogHistory.TwoTurnsCatchUp | server/server.py:988-1005 | two turns with working sends bring a client up to the head |
| LogRing.ChatServer.EmitRecord | server/server.py:167-179 | numbering and eviction; the broadcaster's own lines are ignored |
| LogRing.ChatServer.EntriesSince | server/server.py:185-187 | the oldest `limit` entries above the cursor |
| LogRing.ChatServer.SendLogSnapshot | server/server.py:1007-1034 | cursor at the head, even if nothing is sent |
| LogRing.ChatServer.PruneCursors | server/server.py:983-986 | only online sockets keep a cursor |
| LogRing.ChatServer.VisitClient | server/server.py:988-1005 | one client's turn, in every branch |
| Prekeys.ServedOnceAndConserved | server/prekey_store.py:81-131 | over any interleaving that brings no served id back: none served twice, stored = served + remaining |
| Prekeys.ServedTwiceExactlyIfReadded | server/prekey_store.py:81-94 | some number of further claims serves an id twice if and only if a served id is back in the pool |
| Prekeys.PoolExactly | server/prekey_store.py:81-132 | over every run the key held for an id is the one first published for it since it was last claimed |
| Prekeys.ServedExactly | server/prekey_store.py:106-132 | a claim serves exactly the least id held, with that key, and nothing if and only if none is held |
| Prekeys.PrekeyStore.AddOneTimePrekeys | server/prekey_store.py:81-94 | present ids keep their key; returns how many were new |
| Prekeys.PrekeyStore.ClaimOneTimePrekey | server/prekey_store.py:106-132 | removes and returns the least id present |
| Prekeys.PrekeyStore.ClaimFallback | server/prekey_store.py:134-152 | ends although other claims may win rounds, and is then a claim made after theirs; without races it is the RETURNING claim |
| Prekeys.PrekeyStore.GetBundle | server/prekey_store.py:162-185 | a one-time prekey is spent only on a bundle that is served |
| Heartbeat.HeartbeatKeeps | client/src/chatclient.cpp:5365-5512 | over every run a ping in flight has a send time and at most five re-sends, a cycle at most 1 + 5 pings, and pings of the current connected stretch keep the timer armed |
| Heartbeat.PingsOnlyReachable | client/src/chatclient.cpp:5153-5213 | no event pings a gated or offline peer, or without socket or session |
| Heartbeat.NoPongDebtLost | client/src/chatclient.cpp:3923-3964 | after each ping of the peer, until a logout, the debt stands or a pong went out since |
| Heartbeat.PongsOnlyForPings | client/src/chatclient.cpp:5518-5529 | over every run at most one pong per ping received |
| Heartbeat.PairedStepExactly | client/src/chatclient.cpp:4977-4981 | an event separates the in-flight flag from the send time if and only if it resolves the gate while a ping is in flight |
| Heartbeat.UnwatchedExactly | client/src/chatclient.cpp:1655-1662 | over every run, a ping in flight on a live socket has no running timer if and only if the last connect left it unwatched and nothing has armed the timer since |
| Heartbeat.ForcedPingCanBeStranded | client/src/chatclient.cpp:5604-5619 | a run in which that happens to a forced ping |
| HeartbeatHistory.CountIsLargest | client/src/chatclient.cpp:5274-5321 | the number of texts unanswered, read off the events: since the last frame in, file key, re-bootstrap or logout, with counts restored meanwhile |
| HeartbeatHistory.CountAndFlight | client/src/chatclient.cpp:5274-5355 | over every run the counter is that number, and ping in flight, pong debt and parked heal are recorded exactly while the events and frames say so |
| HeartbeatHistory.PingsExactly | client/src/chatclient.cpp:5153-5619 | over every run an event sends a ping, and one at most, if and only if it wants one and socket, session, gate, presence and chain allow it |
| HeartbeatHistory.EighthTextPings | client/src/chatclient.cpp:5274-5306 | with socket and session and none in flight a text is at least the eighth unanswered if and only if it pings or starts the timer, and it pings unless gate, presence or chain forbid it |
| HeartbeatHistory.PongsExactly | client/src/chatclient.cpp:5518-5529 | over every run an event sends a pong if and only if one is owed, a frame arrives or the timer passes, and socket, session and chain allow it |
| HeartbeatHistory.ArmsExactly | client/src/chatclient.cpp:5365-5512 | over every run the timer runs after an event if and only if the event starts it, or it ran and the event is neither its firing nor a logout |
| HeartbeatHistory.UnfinishedExactly | client/src/chatclient.cpp:5417-5470 | a pass counts as unfinished if and only if after it a pong is owed, a heal parked, or texts are unanswered with none in flight though gate and session would allow one |
| HeartbeatGate.SendTimePairsWithPing | client/src/chatclient.h:1287-1291 | over every run of heartbeat and gate together a send time exists exactly while a ping is outstanding, and no ping is in flight while only the peer's half is missing |
| HeartbeatGate.ResolutionFindsNoPing | client/src/chatclient.cpp:4940-4981 | in those runs the resolution never finds a ping in flight |
| HeartbeatGate.HeartbeatKeepsCoupled | client/src/chatclient.cpp:5365-5512 | the budget, cycle and timer invariants hold in those runs too |
| HeartbeatGate.GateClearsExactly | client/src/chatclient.cpp:5323-5355 | over every run a changed key and a confirmed warning clear count and ping and keep the debts; no other gate event touches the rekey accounting |
| HeartbeatClient.Client.TransmitRekey | client/src/chatclient.cpp:5153-5248 | sends exactly when the peer is open, present and sendable; a pong ignores gate and presence |
| HeartbeatClient.Client.MarkRekeyPingSent | client/src/chatclient.cpp:5252-5268 | flag, time and, for a fresh ping, a new budget; the timer runs |
| HeartbeatClient.Client.NoteOutboundTo | client/src/chatclient.cpp:5274-5306 | counts the text, and at eight unanswered pings or arms the retry |
| HeartbeatClient.Client.NoteInboundFrom | client/src/chatclient.cpp:5311-5321 | a frame from the peer resets its window |
| HeartbeatClient.Client.ResetPcsFor | client/src/chatclient.cpp:5333-5355 | a re-bootstrap clears everything but the pong debt |
| HeartbeatClient.Client.SendOwedPongIfReady | client/src/chatclient.cpp:5518-5529 | the debt goes with a pong and only with one |
| HeartbeatClient.Client.OnFrameFrom | client/src/chatclient.cpp:3895-3964 | the receive path: reset, owe, pay, or arm the retry |
| HeartbeatClient.Client.KickSection | client/src/chatclient.cpp:5378-5470 | each loop of the pass treats every peer as its record says, in any order |
| HeartbeatClient.Client.KickRekey | client/src/chatclient.cpp:5365-5512 | the whole pass for all peers at once, and exactly when the timer runs on |
| HeartbeatClient.Client.IdleTick | client/src/chatclient.cpp:120-146 | the idle backstop for all peers at once |
| HeartbeatClient.Client.ReestablishPcsForAll | client/src/chatclient.cpp:5542-5583 | the lifecycle heal: pinged, parked or skipped |
| HeartbeatClient.Client.ForceRekey | client/src/chatclient.cpp:5604-5619 | at most one ping in flight |
| HeartbeatClient.Client.OnConnected | client/src/chatclient.cpp:1655-1662 | the timer restarts exactly if a debt or a count is recorded |
| HeartbeatClient.Client.OnGateResolved | client/src/chatclient.cpp:4977-4981 | only the in-flight flag goes |
| HeartbeatClient.Client.ClearPcsState | client/src/chatclient.cpp:5589-5600 | nothing survives a logout |
| Outbox.EveryEntryInOnePlace | client/src/chatclient.cpp:2432-2636 | over every run of drains and live sends of all kinds, rekey pings and pongs included, each entry is queued, transmitted, dropped or (a file) queued anew, exactly one of them; persisted rows are those of queued entries; encrypt steps equal frames handed to a connected socket |
| Outbox.TextsKeepTheirOrder | client/src/chatclient.cpp:2432-2636 | over any drains, texts to a peer go out, and wait, in the order composed, if none sent live overtakes |
| Outbox.OrderLostExactlyByOvertaking | client/src/chatclient.cpp:2755-2943 | composing breaks the order if and only if a live text finds the peer open and ready with an earlier text still queued |
| Outbox.SecondTextOvertakes | client/src/chatclient.cpp:2812-2866 | such a run: queued offline, socket back, a second text before the drain |
| OutboxOutcomes.DrainByCause | client/src/chatclient.cpp:2463-2628 | every drain of every run puts each entry where its cause says: sent, dropped, queued anew or still waiting, each if and only if socket, key, gate, attested identity, source file and encryptFor say so; its row stands exactly while it waits |
| OutboxOutcomes.DrainInOrder | client/src/chatclient.cpp:2463-2628 | a drain hands over, in queue order, exactly the entries that go, each with the ping it starts, and leaves exactly those that wait and the files queued anew |
| OutboxOutcomes.ComposeByCause | client/src/chatclient.cpp:2755-2943 | every live send of every kind, from its cause: sent with the ping it starts, queued last with a row if history is ready, or refused without effect |
| OutboxOutcomes.GateHoldsBack | client/src/chatclient.cpp:2479-2497 | over every run no text, file, edit or ping for a peer behind the gate is handed to the socket |
| OutboxOutcomes.OneStepPerFrame | client/src/chatclient.cpp:2432-2442 | over every run the ratchet was stepped exactly once for every frame sent but the verifyacks |
| Outbox.Client.Enqueue | client/src/chatclient.cpp:2254-2323 | a new entry at the end, with its row when history is ready |
| Outbox.Client.TransmitRekey | client/src/chatclient.cpp:5153-5248 | a ping only past an open gate to a present peer, a pong whenever the chain can send |
| Outbox.Client.NoteOutboundTo | client/src/chatclient.cpp:5274-5306 | the ping a full window starts, inside a drain too |
| Outbox.Client.SendQueuedFile | client/src/chatclient.cpp:5663-5822 | a queued file is transmitted, dropped, or queued anew |
| Outbox.Client.FlushOne | client/src/chatclient.cpp:2463-2628 | one entry's outcome in every branch |
| Outbox.Client.FlushOutbox | client/src/chatclient.cpp:2432-2636 | the drain; a re-entrant call changes nothing |
| Outbox.Client.SendMessage | client/src/chatclient.cpp:2755-2943 | a text is sent, queued or refused |
| Outbox.Client.SendFile | client/src/chatclient.cpp:5663-5822 | a file is sent, queued or refused |
| Outbox.Client.SendOrQueueHandshake | client/src/chatclient.cpp:5008-5058 | a handshake is sent or queued, never lost |
| Outbox.Client.SendOrQueueVerifyAck | client/src/chatclient.cpp:4795-4845 | a verifyack is sent or queued with the identity it attests |
| Outbox.Client.SendEdit | client/src/chatclient.cpp:6088-6180 | an edit is sent or refused, never queued |
| Outbox.Client.SendRekey | client/src/chatclient.cpp:5518-5529 | a rekey frame needs a connected socket and a session |

## Left out

- GateClient.Client.AcknowledgeKeyChange: does not include the ratchet reset (HeartbeatGate has the heartbeat's) nor the handshake the initiator sends; of the drain it has the verifyack entries.
- GateClient.Client.FlushAcks: drains the verifyack entries; Outbox drains all kinds.
- GateClient.Client.OnKey: the drain of the outbox that ends the branch is not part of it.
- GateClient.Client.TryResolveBilateral: the drain of the outbox that ends the function is not part of it; a drain is a step of its own (`FlushAcks`, and Outbox), and `GateClient.FlushResolves` shows that the two commute.
- GateSystem.NoVerificationDeadlock: does not cover handshake adoption, which writes the peer's key without re-flagging, and counts the confirmations given since both logged in; what an earlier one restored from disk is worth, `GateHistory.AsksForMissingHalf` says.
- GateHistory.GateExactly: the key of a session follows the `keys`, `key` and `key_update` frames; a login on top of another user's session, without a logout, is not modelled. The histories also allow a re-flag without a key frame, which no caller of flagKeyChange makes.
- Relay.ExactlyOnceInOrder: takes a login with its drain, and a live delivery with its cursor update, as single steps; RelayAwaits takes them apart and says exactly when each frame still arrives once, and when in order.
- Relay.Server.Login: is that single step.
- RelayAwaits.FrameOnceExactly: a nick has one socket, since a second login closes the first; handing a frame to a socket is one step, and what the network loses after it is not modelled. A live send that raises after handing its frame over counts as handed over, so the replay that follows counts as a second time.
- Relay.Server.HandleMsg: leaves the envelope's fields, their validation and the size limit out; delete, reaction and verifyack frames go through the same store.
- LogRing.EachLineOnceInOrder: takes one client's turn in a pass as a single step.
- FileTransfer.FileStore.Replay: replays one file; the order of several files by time stamp is not modelled.
- FileStream.StreamIntegrity: assumes that nothing but the sender's own chunks was sealed under the stream's key and header, which is what the secretstream's authentication provides.
- Prekeys.PrekeyStore.ClaimFallback: a lost race is one whose winner takes the selected row; transactions are otherwise atomic, and ids are natural numbers as on the client.
- Outbox.Client.SendMessage: the X3DH opener header, echoes, typing states and history rows are not modelled; the same holds for the other live sends.
- Outbox.Client.NoteOutboundTo: whether a send fills the recovery window is a parameter; HeartbeatClient.Client.NoteOutboundTo counts.
- Outbox.TextsKeepTheirOrder: what encryptFor answers for a peer stays the same during one drain, since no inbound frame is handled meanwhile.
- Dedup.DuplicationIsHarmless: what a login restores is the session as it stood. Sessions are saved after every text read and every send; a crash before that, or an empty text read last, is not modelled.
- CryptoBox.Box.DecryptFrom: counters are unbounded, so a chain of nearly 2^32 frames, where the client's 32-bit counters wrap, is not covered; the reference's error there is.
- Dedup.PurgeLosesExactly: with sheds, `TakesExactly` says the same of whatever is stored; which keys the cap sheds is hash order and left open.
- Heartbeat.HeartbeatKeeps: is stated for one peer with the other peers acting on the shared timer; presence, gate and readiness are parameters of each event.
- Restoring the outbox from disk, with its identity stamps, is not modelled; the persisted rows are.
- Real cryptography, X3DH, `safety_number`, cipher selection and the legacy static scheme.
- Accounts, password recovery and its rate limit, presence, typing, reactions, TLS and storage engines.
- History and message models, localisation, notifications and user interface.
