# A verified model of a peer-to-peer chat node

The modelled program is a terminal chat without a server. Every participant runs
one symmetric node that listens and dials, proves with a shared room code that it
may join, tells its peers about each other, and encrypts each message separately
for each of them. This project models the four files that carry that design
(`src/node.rs`, `src/peers.rs`, `src/room.rs`, `src/crypto.rs`) in Dafny and proves
what they promise. `dafny verify dfyconfig.toml` checks everything.

## How it is organised

**Codec and proofs of admission.**

- `Positional`: positional numerals and the bit operations of a 16-bit register.
- `RoomCodec`: `parse` and `display` as the source's loops over a wrapping `u16`,
  proved equal to a description by numerals. `RoomLaws`: round trips and normal form.
  `RoomTyping`: exactly which texts are read as a code, letter by letter.
- `AdmissionProof`: the MAC over both keys and both nonces, and what it binds.

**One node.**

- `Keys`, `Peers`: the key order, the registry class, the tiebreak, gossip filtering.
- `NodeState`: the state behind the mutex as a class with one method per critical
  section, each computing a function of the locked values.
- `NodeMachine`: any number of connection tasks, `say` calls and gossip dials of one
  node as a state machine over sixteen kinds of step. Every critical section, every
  emission after the lock is released, and every single send is a step of its own,
  built from the functions of `NodeState`. Runs are arbitrary step sequences.
- `NodeAgreement`, `NodeEvents`, `NodeSends`, `NodeHandles`, `NodeDials`: what holds
  in every state of every run, built on `Counting`. `NodeOrder`: exactly when joins and
  leaves are reported in turns. `NodeQueues`: what every single attempt to send does.
  `NodeIntroductions`: every newcomer is announced. `NodeRest`: what can happen in
  every state, and that nothing is left over when all is done.

**Several nodes.**

- `Duel`, `DuelLimits`: two nodes that dial each other, exactly when they are sure to
  keep the same connection, and exactly when they are sure to keep no other.
- `Mesh`, `MeshLaws`: gossip over any network, its termination and its outcome.
- `Handshake`, `Rendezvous`: admission under a network adversary, and its progress
  between two honest nodes.
- `Attribution`: who wrote what a node shows.

## Where the code and its comments disagree

The model follows the code; each difference is a lemma.

- `src/node.rs:8-11`, `414-415` and `474-476` say that replacing a connection's map
  entry ends the task that lost it. It does not: the task keeps `mine`, a sender for
  its own channel, until after `pump` (lines 408 and 449), so that arm of the loop
  never fires (`NodeHandles.ClosedChannelNeverFires`) and a superseded connection may
  stay open for good (`DuelLimits.LoserMayStayOpen`). Two nodes are sure to be left with
  at most one open connection exactly when there is only one, or the smaller key dialled
  none of them (`DuelLimits.LosersRetireExactlyWhen`). A connection left over does no
  harm (`NodeAgreement.SupersededDisconnectIsHarmless`).
- `src/peers.rs:149-152` says that both nodes always agree on the surviving connection.
  They always agree on who wins a *comparison* (`Peers.BothEndsAgree`), but the last
  winner to arrive is kept, and a loser may be taken first. Both are sure to end up
  with the same connection exactly when the smaller key dialled once or there is only
  one connection (`DuelLimits.SettlesExactlyWhen`).
- `src/room.rs:75-84` promises case and prefix leniency. The prefix itself is accepted
  only as `TIO` or `tio` (`RoomLaws.MixedCasePrefixIsRefused`,
  `RoomLaws.RetypingKeepsTheOutcome`).
- `PeerJoined` and `PeerLeft` are emitted outside the lock, so a `PeerLeft` may come
  out before its `PeerJoined`, for every peer (`NodeEvents.LeftBeforeJoined`). The
  registry's own changes do alternate, and their reports do as long as no connection is
  taken in under a key on which a task still owes a report. Where one is, they may not
  (`NodeOrder.SafeToTakeInExactlyWhen`).

## Assumptions

- X25519, XChaCha20-Poly1305, HMAC and SHA-256 are ideal. In `AdmissionProof` the two
  hashes are arbitrary functions, and lemmas that need it assume no collision on the
  very inputs they talk about. In `Handshake` a MAC is a constructor; in `Attribution`
  a pair of keys *is* its shared secret.
- Nonces drawn by honest nodes are distinct.
- Rules on text that belong to the standard library (`trim`, `to_lowercase`, reading a
  socket address) are parameters, in `Peers.TextRules`.
- What the scheduler, the sockets, the peers and the iteration order of hash maps do is
  left open: it is the choice of the next step.

## Model

| member | source | states |
|---|---|---|
| RoomCodec.ShiftIn | src/room.rs:117-118 | `(bits << k) \| v` in a wrapping 16-bit register appends k bits to the unbounded stream: the low `width + k` bits are the not yet emitted suffix, whatever was shifted out at the top |
| RoomCodec.ShiftOut | src/room.rs:119-122 | emitting the top k pending bits continues the emitted numeral by exactly the stream's next digit, and leaves the register holding the rest |
| RoomCodec.StreamEnd | src/room.rs:125-127 | when nothing is pending, what was emitted is the stream's own digits, which are unique |
| RoomCodec.Parse | src/room.rs:78-128 | the loop computes the bytes of the number denoted by the 16 folded base-32 symbols, `width` stays under 8 between symbols, and both refusals happen exactly for a wrong length or a foreign character; the final array conversion never fails |
| RoomCodec.EncodeOne | src/room.rs:139-142 | `ALPHABET[(bits >> width) & 0x1F]` is the letter of the stream's next five bits |
| RoomCodec.Display | src/room.rs:131-152 | the loop computes the 16 letters of the code's number, `width` stays under 5 between bytes and at most 12 inside, and the letters come out in dash-joined groups of four after `TIO-` |
| RoomLaws.ParseUndoesDisplay | src/room.rs:73-152 | parsing what is displayed gives back the code, for every 80-bit code |
| RoomLaws.ParseUndoesDisplayWithoutPrefix | src/room.rs:84-91 | and so it does with the prefix left off, because no displayed body can look like a prefix |
| RoomLaws.DisplayShape | src/room.rs:145-151 | every code is shown as `TIO-` and four groups of four letters, 16 in all |
| RoomLaws.CodeOfSymbols | src/room.rs:93-127 | a code's 16 symbols regroup into exactly its ten bytes |
| RoomLaws.SymbolsOfCode | src/room.rs:132-143 | 16 symbols survive being packed into ten bytes, so different symbols are different codes |
| RoomLaws.LetterValue | src/room.rs:103-115 | each letter of the alphabet is read back as its own index: folding lookalikes never touches a letter that is shown |
| RoomLaws.SeparatorsAreIgnored | src/room.rs:79-82 | a separator inserted anywhere, even inside the prefix, does not change the outcome |
| RoomLaws.SameCodeIffSameSymbols | src/room.rs:79-128 | two accepted texts give one code if and only if their folded symbols agree |
| RoomLaws.DisplayOfParse | src/room.rs:131-152 | the display of a parse is the text's folded symbols in canonical form: parsing computes a normal form |
| RoomLaws.RetypingKeepsTheOutcome | src/room.rs:84-110 | changing case or lookalikes keeps the outcome if and only if both texts or neither carry an accepted prefix, or the length rules a code out anyway |
| RoomLaws.MixedCasePrefixIsRefused | src/room.rs:84-96 | for every code, the prefix `Tio` is refused where `TIO` is accepted |
| RoomTyping.ReadingExactly | src/room.rs:102-115 | a character is read as symbol v if and only if it is the letter of v in either case, or one of I, i, L, l and v is 1, or one of O, o and v is 0 |
| RoomTyping.AcceptsExactly | src/room.rs:73-128 | a text is read as a code if and only if it is the code's 16 symbols, each in any of those readings, after `TIO`, `tio` or nothing, with any of the six separators anywhere |
| RoomTyping.RefusesExactly | src/room.rs:93-115 | a text is refused for its length if and only if its body has not 16 characters, and for a character if and only if it has and one of them reads as nothing |
| RoomTyping.AnyCaseIsRead | src/room.rs:73-77 | every code as shown, its body in any mixture of cases, after `TIO` or `tio`, is read as that code |
| Positional.BitwiseExactly | src/room.rs:117-141 | the model's `\|`, `&` and `^` are the bitwise ones, bit by bit |
| AdmissionProof.ConstantTimeEq | src/room.rs:204-206 | the OR of the XORs of all bytes is zero if and only if the arrays are equal |
| AdmissionProof.Verify | src/room.rs:189-201 | a claimed proof is accepted if and only if it is the one the other side makes |
| AdmissionProof.ProofInputBinds | src/room.rs:179-185 | with 32-byte keys the concatenation is injective: equal inputs mean equal keys and nonces in equal roles |
| AdmissionProof.UncheckedKeysCollide | src/node.rs:702-706 | without the length check it is not: the same bytes also read as a 31-byte and a 33-byte key |
| AdmissionProof.ProofBindsItsInputs | src/room.rs:166-186 | unless the hashes collide on these inputs, two proofs are equal if and only if code, roles, keys and nonces are |
| AdmissionProof.EchoedProofFails | src/room.rs:168-171 | a proof sent back to its maker verifies if and only if both ends have one key and one nonce |
| RoomContexts.ContextsSpell | src/room.rs:32-33 | the two contexts are the source's texts |
| Keys.LessExactly | src/peers.rs:160-167 | slice order: smaller means that after a common prefix it has the smaller byte, or ends first |
| Keys.LessIsNumeric | src/peers.rs:160-167 | keys of one length compare as the numbers their bytes spell |
| Keys.LessTransitive | src/peers.rs:160-167 | the slice order behind the tiebreak is transitive |
| Keys.LessTotal | src/peers.rs:160-167 | of two distinct keys exactly one is the smaller |
| Peers.PeerRegistry.constructor | src/peers.rs:102-108 | a new registry is empty and knows its own key and name |
| Peers.PeerRegistry.Admit | src/peers.rs:114-145 | the exact new registry and outcome for our own key, a new peer, a winning and a losing second connection; the name conflict reported is ours first, else that of some peer with the name, and none only if nobody has it |
| Peers.PeerRegistry.Remove | src/peers.rs:169-171 | removes that key and nothing else |
| Peers.PeerRegistry.SelectUndialed | src/peers.rs:193-203 | the filter with its `seen` set returns, in order, the first entry of each key that is neither ours nor connected |
| Peers.SmallerNumberWins | src/peers.rs:119-128 | a second connection supersedes if its dialler's key is the smaller number, and is refused otherwise |
| Peers.BothEndsAgree | src/peers.rs:147-167 | the two ends of one connection give it the same verdict, that of being the smaller key's dial |
| Peers.SurvivorIsHeld | src/peers.rs:114-128 | after any list of connections for one peer the registry holds the last one the smaller key dialled, or the first if it dialled none |
| Peers.BothEndsHoldTheSame | src/peers.rs:114-128 | in any two arrival orders with exactly one dial of the smaller key, both ends hold that one |
| NodeState.State.constructor | src/node.rs:220-224 | a node starts with no connection and no dial in flight |
| NodeState.State.Admit | src/node.rs:410-419 | registry and connection map change together: both take the newcomer, or neither changes |
| NodeState.State.Disconnect | src/node.rs:649-661 | both entries go if the map still holds this task's channel, and nothing changes otherwise; the answer says which |
| NodeState.State.HandleGossip | src/node.rs:522-560 | truncating, retaining, filtering and marking as in flight dial exactly the selected entries, and each one's address is valid, so reading it again cannot fail |
| NodeState.State.FinishedDialing | src/node.rs:575-577 | one key stops being in flight |
| NodeState.State.ListPeers | src/node.rs:507-509 | an announcement lists every registered peer exactly once |
| NodeState.State.Snapshot | src/node.rs:321-333 | a send loop gets exactly one target for each registered key that has a connection, with that connection's channel |
| NodeState.Retain | src/node.rs:534-538 | only entries with a 32-byte key, a name and a readable address are kept, in order |
| NodeState.SelectedKeys | src/node.rs:523-554 | a key is dialled if and only if a usable entry within the cap has it and it is not ours, connected or in flight |
| NodeState.SelectionIsDeclarative | src/node.rs:523-554 | truncation, retention and the two stateful set filters together are one declarative choice per entry, on every prefix of a frame |
| NodeState.SelectionOfFrame | src/node.rs:523-554 | hence, for every frame: the first usable entry of each new key among the first 64, in order |
| NodeState.SelectedAreAddresses | src/node.rs:556-560 | the failure branch of the second address parse is unreachable |
| NodeState.AdmitKeeps | src/node.rs:410-419 | the registry keeps indexing every peer under its own key |
| NodeAgreement.StepAgrees | src/node.rs:152-155 | each of the sixteen steps keeps the agreement of the two maps |
| NodeAgreement.RegistryAndConnectionsAgree | src/node.rs:152-155 | in every state of every interleaving both maps have the same keys, ours in neither, and each entry is what the handshake of the live task owning that channel recorded |
| NodeAgreement.SupersedingLoses | src/node.rs:410-423 | superseding hands the entry to the newer task, leaves the older one pumping, and changes neither membership nor events |
| NodeAgreement.LostForGood | src/node.rs:644-661 | no step gives a task that lost its entry the entry back |
| NodeAgreement.SupersededDisconnectIsHarmless | src/node.rs:644-668 | however long afterwards, the disconnect of a task that lost its entry evicts nobody and announces nothing |
| NodeEvents.AdmitLedger | src/node.rs:421-445 | an admission counts as a join only when the peer was not there: superseding and refusing contribute nothing |
| NodeEvents.JoinsAndLeavesConserved | src/node.rs:421-445 | for every key and run, admissions less evictions is one exactly while the key is registered, the two strictly alternate, and once nothing is left to emit the events add up to the same |
| NodeEvents.LeftBeforeJoined | src/node.rs:437-440 | the event stream itself need not alternate: for every peer, there is a run whose only events are its leave and then its join |
| NodeOrder.CalmEventsTakeTurns | src/node.rs:424-440 | in every run that takes in connections of a key only while no task owes a report on it, joins and leaves of the key are reported in turns throughout |
| NodeOrder.BusyAdmissionAnywhere | src/node.rs:410-440 | from every reachable state in which a connection is taken in while a report on its key is due, there is a continuation that reports out of turn |
| NodeOrder.SafeToTakeInExactlyWhen | src/node.rs:410-440 | after any run that has kept to that rule, taking in a connection keeps every such continuation in turn if and only if no task owes a report on its key |
| NodeSends.NoMisdirectedCiphertext | src/node.rs:340-357 | in every run, every Chat frame ever queued on a channel was sealed for the key that channel's handshake established |
| NodeSends.SayCoversTheRegistry | src/node.rs:318-333 | the snapshot of `say` names exactly the registered peers |
| NodeSends.OneAttemptPerPeer | src/node.rs:342-363 | a call that got past a target tried it once: one frame on that channel if it was queued, none if it was dropped or could not be sealed |
| NodeSends.SayTriesExactlyTheRegistered | src/node.rs:318-363 | in every run, a `say` that has come to its end has tried exactly the peers that were registered when it took its snapshot, each of them once, with one frame on that peer's channel if it was queued and none if not |
| NodeSends.AnnouncementTriesExactlyTheConnected | src/node.rs:506-519 | an announcement that has come to its end has tried exactly the connections of its snapshot, each once, with every registry entry of that moment listed once |
| NodeSends.NobodyElseIsSentTo | src/node.rs:342-363 | no channel outside the snapshot ever carries a frame of the call |
| NodeQueues.EachAttempt | src/node.rs:342-363 | in every reachable state, an attempt that seals, on a channel whose task has not returned with fewer than 64 frames waiting, appends exactly its call's frame; any other leaves the queue alone; the outcome says which |
| NodeQueues.FramesAreGenuine | src/node.rs:506-519 | every frame ever on a channel is its call's own: a ciphertext of a `say`, or the very list an announcement took |
| NodeQueues.FirstInFirstOut | src/node.rs:471-473 | a task takes frames off one by one from the front, only ones that were queued, and what is queued never changes |
| NodeQueues.EachSayIsEchoedOnce | src/node.rs:335-369 | every `say` had somebody to go to, and is shown to ourselves with its text, once, after everybody has been tried |
| NodeIntroductions.EachAdmissionIsAnnouncedOnce | src/node.rs:421-446 | in every run there are as many announcements, made or still owed, as admissions: superseding and refusing announce nothing |
| NodeIntroductions.DialledConnectionsAreOurs | src/node.rs:563-566 | a connection that gossip made us dial is outbound, so it wins the tiebreak only if our key is the smaller number |
| NodeIntroductions.ReportsNameWhoWasMet | src/node.rs:437-440 | who is reported as joining or leaving is a peer exactly as some handshake gave it |
| NodeRest.WhatATaskCanDo | src/node.rs:392-451 | in every reachable state a task can do what its phase calls for and only that: no step waits for anything else |
| NodeRest.WhatANodeCanDo | src/node.rs:303-376 | a send loop can always go on and the key it has always seals; something can be said if and only if somebody is registered; a dial ends only with its task |
| NodeRest.EverythingCanEnd | src/node.rs:448-451 | from every reachable state all that was begun can be finished |
| NodeRest.AtRestNothingIsLeft | src/node.rs:563-576 | whenever it is, nobody is registered or connected, no key is marked, no channel has a sender, and joins and leaves reported are equal |
| NodeHandles.StepBalance | src/node.rs:405-419 | every step keeps the balance of each channel's live senders |
| NodeHandles.HandleAccounting | src/node.rs:405-419 | in every state the senders of a channel are its task's own until `disconnect` is over, the map's if it is there, and the clones of unfinished send loops |
| NodeHandles.ClosedChannelNeverFires | src/node.rs:471-477 | no reachable state lets `pump` see its channel closed, superseded or not |
| NodeDials.StepDials | src/node.rs:540-576 | every step keeps one outstanding attempt for each key in flight and none for the others |
| NodeDials.OneDialPerKey | src/node.rs:540-576 | in every run a key is in flight if and only if an attempt on it has not ended, never two at once; insertions less ended attempts is one exactly while it is in flight |
| NodeDials.EachDialIsClearedOnce | src/node.rs:563-576 | in every run each dial's clean-up has happened exactly once if it has ended and never before, and takes out a key that is in flight |
| NodeDials.MarkCoversTheConnection | src/node.rs:563-571 | the mark stays for the whole life of the connection that was dialled |
| Duel.AdmitEffect | src/node.rs:410-422 | between two nodes, a connection is taken if there is no other or it is the smaller key's dial, and closed otherwise |
| Duel.StepSound | src/node.rs:644-661 | no admission or disconnect at either end closes a dial of the smaller key, and the map points to one as soon as one is up |
| Duel.RunsAreFinite | src/peers.rs:119-128 | every run of a duel is bounded by a measure of what has not arrived and what is still open |
| Duel.SmallerKeysDialIsKept | src/peers.rs:147-167 | the only dial of the smaller key is never closed, and is the one held from the moment it is up |
| Duel.OneSmallDialSettles | src/peers.rs:147-167 | with one dial of the smaller key and any number of the larger's, every quiescent state has both maps pointing to it |
| DuelLimits.Finish | src/node.rs:448-450 | every state of a duel can be run on to a quiescent one |
| DuelLimits.TwoSmallDialsMaySplit | src/peers.rs:119-128 | with two dials of the smaller key there is always a run that leaves the ends with different ones |
| DuelLimits.LargeDialsMayAllDie | src/peers.rs:119-128 | with several dials, all of the larger key, there is always a run that leaves no connection at all |
| DuelLimits.SettlesExactlyWhen | src/peers.rs:147-167 | all runs settle on one connection if and only if the smaller key dialled exactly once or there is exactly one connection |
| DuelLimits.LoserMayStayOpen | src/node.rs:8-11 | for every dial of the smaller key and every other connection there is a quiescent run that leaves both open at both ends, with both maps pointing to that dial if it is the smaller key's only one |
| DuelLimits.LosersRetireExactlyWhen | src/node.rs:8-11 | every quiescent state has at most one connection open at each end if and only if there is at most one, or the smaller key dialled none |
| Mesh.DeliverSelects | src/node.rs:522-554 | a delivered frame makes its receiver dial exactly the keys among its first 64 entries that are not its own, linked or in flight |
| Mesh.StepProper | src/node.rs:410-576 | every step of the network keeps its invariant: registries and maps agree, links are pairwise, frames name existing nodes, and each key in flight is being dialled or already joined |
| MeshLaws.StepPromise | src/node.rs:441-444 | as long as two neighbours of a node with at most 64 peers are not joined, the node owes an announcement, or one of them is being told of or dialling the other |
| MeshLaws.QuietNet | src/node.rs:500-519 | a network of any size with no step left has no dial, admission, announcement or frame pending: it is finished, not stuck |
| MeshLaws.LinksAreMutual | src/node.rs:506-519 | in every quiescent state of every network links are symmetric and every dial made by hand is one |
| MeshLaws.MeshCloses | src/node.rs:500-519 | and two neighbours of one node that ends up with at most 64 peers are neighbours |
| MeshLaws.ComponentsBecomeCliques | src/node.rs:500-573 | hence the ends of every path of bootstrap dials are linked if the nodes in between have at most 64 peers each: each such component is a full mesh |
| MeshLaws.RoomsBecomeCliques | src/node.rs:500-573 | so whenever bootstrap dials connect at most 65 nodes, they end up a full mesh, whatever other rooms the network has |
| MeshLaws.LinksStayInComponents | src/node.rs:521-573 | gossip never links nodes that no bootstrap dials connect |
| MeshLaws.StepRanks | src/node.rs:500-505 | every step lowers a lexicographic measure: pairs to join, ends to admit, announcements owed, frames, dials |
| MeshLaws.EveryRunEnds | src/node.rs:500-505 | no schedule runs for ever: gossip terminates |
| MeshLaws.EveryNetworkSettles | src/node.rs:500-505 | every run of every network can be completed to a quiescent state, the kind the mesh laws speak of |
| Handshake.RefusesForTheFirstFault | src/node.rs:702-715 | each refusal of a Hello, exactly when it is given |
| Handshake.ProofsAreTheRoomCodes | src/room.rs:172-201 | the handshake's ideal proofs are those of the room code, and pass exactly when its check passes, unless the hashes collide on them |
| Handshake.HonestHandshakeCompletes | src/node.rs:671-754 | after any run, two honest nodes whose frames get through both accept if their codes are equal and both refuse if not |
| Handshake.StepSound | src/node.rs:678-746 | whatever the adversary delivers, proofs in the network come from sessions that recorded the other end, and acceptance rests on a proof it could send |
| Handshake.MatchingConversations | src/node.rs:717-746 | a session accepted under a secret code has exactly one other half: an honest session with the accepted key and nonce, the same code, and this session recorded as its peer |
| Handshake.ProofServesOneSession | src/room.rs:166-171 | no proof is accepted by two sessions |
| Handshake.MirroredHandshakeIsRefused | src/peers.rs:114-117 | a session accepts its own proof only as coming from its own key, and admission then refuses it |
| Handshake.KnownCodeAdmitsAnyone | src/room.rs:14-15 | who knows the code is accepted under any key it names: the handshake proves nothing about the secret key |
| Handshake.AssuredExactlyWhileSecret | src/room.rs:8-15 | a node is sure of its peers if and only if its code is secret |
| Rendezvous.OutOfPlaceIsRefused | src/node.rs:687-736 | a frame of the wrong kind, or the other end closing, ends a handshake there and then, with the reason |
| Rendezvous.ActsOk | src/node.rs:671-753 | every send and read of two nodes keeps what each has sent, read and recorded in step |
| Rendezvous.NeverDeadlocks | src/node.rs:671-672 | for any two nodes and every order of sends and reads, until both are done one of them can act, and there are at most eight actions |
| Rendezvous.SymmetricVerdict | src/node.rs:671-754 | both are done after a known number of actions; then both are admitted if both Hellos are valid and the codes equal, and otherwise both refuse, each for its reason |
| Attribution.OpensForItsPairOnly | src/crypto.rs:132-192 | a sealed message opens if and only if it is opened by its recipient, as coming from its sender, with its nonce; and it opens to what was sealed |
| Attribution.ReflectionsDoNotOpen | src/crypto.rs:151-158 | a message sent back to its author fails to open although the key is right, unless both ends are one key |
| Attribution.OutcomesExactly | src/node.rs:584-642 | what was sealed is shown, not decrypted, not UTF-8, not a message, or signed by another, each exactly when |
| Attribution.NobodyIsSilenced | src/node.rs:303-333 | an honest node may connect to anybody but itself, and say anything on any of its connections |
| Attribution.WhatIsSaidIsShown | src/node.rs:629-641 | whatever an honest node says in any run, the recipient shows once delivered: that text under that key and name, and nothing besides |
| Attribution.StepSound | src/node.rs:584-642 | every admission, call of `say` and delivery keeps everything shown attributable |
| Attribution.ShownWasSaid | src/node.rs:579-642 | in every run, what a node shows under a key whose secret and its own are kept was said for it by that key's honest owner, under that owner's name |
| Attribution.EitherSecretForges | src/crypto.rs:167-181 | with either secret, any content under any name can be shown though nobody said anything |
| Attribution.AssuredExactlyWhileSecret | src/crypto.rs:167-192 | authorship is assured if and only if neither end's secret is out |

## Left out

- Sockets, tokio, timeouts and the line codec: a step may or may not happen, and a
  timeout is one more way for a handshake to break.
- The loops of `say`, `announce_peers` and `pump` as loops: other tasks run between any
  two of their iterations, so `NodeMachine` has each iteration as a step, and
  `NodeSends` proves what the whole loop did.
- JSON text of frames and messages (`src/protocol.rs`, `src/messages.rs`): frames are
  datatypes; a decrypted text may be no message, or no text.
- The mathematics of X25519, SHA-256, HMAC and XChaCha20-Poly1305, low-order points
  included; generating codes, keys and nonces; the case that an encryption fails, which
  `NodeMachine` keeps as a free choice.
- Trimming what is said, and dropping it if nothing is left: `say` is modelled from its
  snapshot on.
- Texts of events and warnings, and fingerprints, which are functions of the key. That
  a name clash is reported is part of `Peers.PeerRegistry.Admit`; that every clash is,
  is not claimed, since superseding may change a name without the check.
- Network collisions inside `Mesh`: a dial that finds a connection of the same pair is
  given up on the spot. How collisions are decided is `Duel`. The two are not combined,
  because a frame queued on a connection the other end refuses is lost and superseding
  does not announce again, so the theorem is one about links that did not collide.
- A full mesh where some registry exceeds the 64 entries honoured from a gossip frame, or
  where frames are dropped from full queues and peers break off or cannot be reached: the
  source does not promise one either. `Mesh` has networks of any size, and everything but
  the three closure theorems (`MeshLaws.MeshCloses` and the two built on it) is proved for
  all of them.
- The order of frames on one connection: `Mesh` delivers in any order, which includes
  the real one.
- `Duel` has no transport failures: a connection closes because an end refused it.
- The user interface, arguments, clipboard, updates, identity files and room storage.
