# Verified models of the matching engine and the sequencer consensus

Two parts of the system are modelled in Dafny and their main promises proved for every input,
every history and every interleaving.

**Matching engine** (`zkapp/engine`). `PriceTimeBook` is the book as one would explain it: two
lists of resting orders, best price first and first come first within a price, with a recursive
matcher. `MatchingEngine.OrderBook` is the book as the engine keeps it, a slab of entries reusing
the slot vacated last, two price ladders of slot queues and an id index, edited in place by nested
loops. Every operation of the object is proved to give the same lists, slots, index and events as
the simple book. The theorems about whole histories (never crossed, true time priority,
conservation of quantity, which slot is reused, when the id index can be trusted) are stated on the
simple book and so hold of the object. `Wal`, `Bincode`, `Processor`, `Recovery` and `Auctions` add the log, crash
recovery, command handling and the solver auctions.

**Consensus node** (`evice-multi-sequencer/src/consensus`). Every delivered message runs in its own
task, so `NodeSteps` models a node as a state machine in which each lock-protected section is one
step and a run is any interleaving of deliveries, proposals, sections and aborts of the proposer
task. `Safety` and `Confirmations` prove quorum safety, at-most-once confirmation, the retained window
and the highest view over all such runs. `Delivery` proves that which hashes end up settled does not
depend on delivery order, and `Outcomes` under what condition the confirmed batches and the highest
view do not either. `Memory` says what a node remembers: recent messages, the highest certificate and
the batches it asks for.
`ConsensusEngine.Engine` is the engine object. Each of its handlers, run by itself, is proved to do
what its chain of sections does. The object carries the run that led to its state, and its invariant
says that this run is legal, so the results about runs are results about the object
(`ConsensusEngine.ProcessedExactly`, `ConsensusEngine.ConfirmedExactly`,
`ConsensusEngine.OrderDoesNotMatter`, `ConsensusEngine.RoundAfterWrite`).
`Certificates` covers the certificate check and `Pacemaker` the round and step driver.

## Assumptions

- Signatures, header proofs and header hashing are parameters (`ConsensusTypes.Env`) with no
  hypotheses, except where a member names its own: `BindingSignatures` (no signature is good for two
  rounds of one vote) and `SignsAsListed` (the node's key is in the address book). Signatures of the
  fixed size can meet both (`ConsensusTypes.FixedSizeCanBind`). The address book is fixed and a node
  does not restart within a run.
- A validly signed vote under the node's own address is delivered only after the node has sent a
  vote for that hash, and a batch the node makes has a hash that is new to it (`NodeSteps.Enabled`).
  The proposer flow builds a fresh header each time, and the hash covers its timestamp and VRF output,
  so the second half is what the flow does. Quorum safety needs it: the own vote is pushed without a
  check, and a batch made over and over would confirm itself on copies of that vote
  (`WitnessRuns.RepeatedBatchConfirmsItself`).
- Duplicate messages are recognised by the message itself, that is, message digests do not collide.
- The entry codec is any self-delimiting one whose reading of an entry does not depend on the bytes
  behind it (`Wal.SelfDelimiting`), and compact (`Wal.Compact`) where
  that is said; `Bincode.STANDARD` is both.
- The write buffer holds 8192 bytes and an encoder hands it pieces of at most 8, in any division.
- Clocks and timeouts are inputs; integer sums that can exceed 64 bits wrap as in a release build.

## Where the code keeps less than one might expect

- Cancelling an id that is no longer resting can remove another order of the same user, because
  fills leave the id in the index and slots are reused (`IdIndex.StaleIdCancelsAnother`);
  `IdIndex.CancelByHistory` gives the exact condition in terms of what was placed where before.
- A log with a torn last entry accepts new entries, but they can be lost (`Bincode.AppendAfterCut`), or
  read back as operations nobody submitted (`Bincode.DamageInventsOperation`).
- A failed log write does not stop execution. Entries pile up in the write buffer, and once it is full
  an entry can be cut in the middle with others behind it (`Wal.WalHandler.WriteEntry`). The entries
  before the damage then come back; what is read behind it can again be operations nobody submitted.
  For a log that started without a torn entry, `Recovery.Restart` states exactly when recovery has
  every executed operation: if and only if no entry was damaged and nothing was pending or cut.
- Aborting the proposer task between the confirmation and its prune leaves more than 256 batches
  retained (`WitnessRuns.WindowOverflows`). Aborting it between its vote and its count can leave a
  batch that has its quorum and that no task will process (`WitnessRuns.AbortStrandsBatch`);
  `Delivery.QuiescentOutcome` shows that this is the only way a settled batch stays unprocessed.
- A locally formed certificate is rejected by peers when too few of its voters named the batch's own
  round (`Confirmations.BroadcastAccepted`, `WitnessRuns.StaleRoundRejected`), or when the node itself
  is not in the address book and its vote is needed (`WitnessRuns.OutsiderCertificateRejected`).
- A batch's hash covers its header only; the round is not in it, and receivers do not compare the
  payloads with the root that is. Of two batches with one header the one that arrives first is confirmed
  (`WitnessRuns.ArrivalPicksBatch`); when no two batches share a hash, order does not matter
  (`Outcomes.OutcomeOrderIndependence`).
- The driver reads the highest view and writes the round under separate locks. A certificate accepted in
  between can leave the round not past it (`WitnessRuns.CertificateOvertakesTick`).
- The sequencer's README describes a leader-based protocol; receivers accept and vote for a proposal
  of any validator in the address book, in any round, and that is what is modelled.
- The round counter wraps after the last 64-bit round (`Pacemaker.TickMovesForward`).

## Model

| member | source | states |
|---|---|---|
| MatchingEngine.OrderBook.constructor | zkapp/engine/src/lib.rs:94-102 | a new book is valid and stands for two empty lists |
| MatchingEngine.OrderBook.PlaceLimitOrder | zkapp/engine/src/lib.rs:106-219 | in every valid book, placing gives the lists, slots, index and event sequence of the simple matcher and a valid book again; no trade is above a buyer's or below a seller's limit |
| MatchingEngine.OrderBook.TakerPhase | zkapp/engine/src/lib.rs:116-186 | the outer loop ends and leaves the opposite list, free slots, remaining quantity and events of the simple matcher |
| MatchingEngine.OrderBook.TakeLevel | zkapp/engine/src/lib.rs:117-186 | serving one level keeps the simple matcher's result in reach and shortens the ladder or uses up the quantity |
| MatchingEngine.OrderBook.MatchLevel | zkapp/engine/src/lib.rs:141-174 | the inner loop empties the level or the quantity and touches no other level, the other side or the index |
| MatchingEngine.OrderBook.MatchFront | zkapp/engine/src/lib.rs:141-173 | the slot at the front of a queue always holds an order; it is cancelled, filled or reduced, with the matching event |
| MatchingEngine.OrderBook.CancelOrder | zkapp/engine/src/lib.rs:221-268 | cancelling through index and slab does to all four structures what the simple book's cancel does to its lists |
| MatchingEngine.OrderBook.GetDepth | zkapp/engine/src/lib.rs:270-307 | each side's snapshot is its best levels, strictly ordered, with exact totals modulo 2^64 and nothing better left out |
| MatchingEngine.CancelsExactly | zkapp/engine/src/lib.rs:224-231 | index and slab lookup succeed exactly when the lists hold an order of this user in the id's slot |
| Levels.SlotsAfterAdd | zkapp/engine/src/lib.rs:203-207 | pushing a slot on its price's queue inserts the order behind every order of the same or a better price |
| Levels.SlotsAfterRemove | zkapp/engine/src/lib.rs:237-246 | retaining all other slots of one queue removes exactly that order from the list and keeps the rest in order |
| OrderBooks.ReleaseSound | zkapp/engine/src/lib.rs:147-169 | vacating a slot keeps the representation invariant: occupied slots queued once at their own side and price, queued slots occupied, free slots vacant |
| OrderBooks.EnqueueSound | zkapp/engine/src/lib.rs:199-207 | storing and queueing an order keeps the representation invariant, in a reused slot or a new one |
| OrderBooks.ViewDeterminesRep | zkapp/engine/src/lib.rs:84-91 | two valid books that stand for the same lists, free slots and index are equal in every structure |
| Matching.MatchClosedForm | zkapp/engine/src/lib.rs:116-186 | the walk's survivors, freed slots, events and remainder, each given by position through the quantity of other users within the limit ahead of it |
| Matching.MatchCompleteness | zkapp/engine/src/lib.rs:116-216 | total traded is the minimum of the quantity and all quantity of other users priced at or below a buyer's limit, at or above a seller's; own orders met before that are cancelled; the remainder rests |
| Matching.EventStreamPriority | zkapp/engine/src/lib.rs:122-174 | events follow the queue strictly forwards; trades and cancelled own orders are at prices at or below a buyer's limit, at or above a seller's; trades are of positive quantity, at prices that never improve, and never with the taker's own orders |
| Matching.TradesWithinLimit | zkapp/engine/src/lib.rs:132-139 | in any book every trade names the taker and is at or below a buyer's, at or above a seller's limit |
| Matching.UnmetOrderRests | zkapp/engine/src/lib.rs:127-216 | if no opposite order is within the limit, the whole order rests, with that one event, and the opposite side is untouched |
| Histories.RunInv | zkapp/engine/src/lib.rs:106-268 | after every history: sides sorted, quantities positive, every slot used once, every bid strictly below every ask |
| Arrivals.AlwaysPriceTimeSorted | zkapp/engine/src/lib.rs:106-268 | after every history bids are ordered from high to low, asks from low to high, and within a price by true position of arrival in the history |
| Vacancies.RestsInLatestVacancy | zkapp/engine/src/lib.rs:199-207 | after any history an order that comes to rest gets, of the slots vacated so far and vacant then, the one vacated last, and the smallest new one if there is none |
| Conservation.Ledger | zkapp/engine/src/lib.rs:106-268 | submitted quantity equals resting plus twice traded plus cancelled, over every history |
| IdIndex.StepIndexExact | zkapp/engine/src/lib.rs:199-207 | one operation keeps every resting id pointing at its own slot if and only if it rests beside no order with its id |
| IdIndex.IndexExactIff | zkapp/engine/src/lib.rs:199-207 | the index is exact throughout a history if and only if no placement in it shadows a resting order |
| IdIndex.FreshIdsIndexExact | zkapp/engine/src/lib.rs:199-207 | placing only ids that are not resting keeps the index exact throughout, duplicates over time included |
| IdIndex.IndexByHistory | zkapp/engine/src/lib.rs:199-261 | after any history an id is indexed iff some placement of it came to rest and no cancel through it has succeeded since, and then at the slot the last such placement took |
| IdIndex.CancelByHistory | zkapp/engine/src/lib.rs:221-268 | a cancel succeeds iff the order that arrived last in that slot still rests and is the requester's; if no order with the id rests, that order came later than the one meant |
| IdIndex.CancelEffect | zkapp/engine/src/lib.rs:221-268 | after any history a cancel removes at most one order, owned by the requester, and does nothing exactly when the id's slot is unknown, empty or another user's, or when repeated |
| IdIndex.CancelOwnResting | zkapp/engine/src/lib.rs:221-268 | with an exact index an owner's cancel of a resting id removes exactly that order and keeps the others in order |
| IdIndex.StaleIdCancelsAnother | zkapp/engine/src/lib.rs:166-169 | a concrete history in which cancelling a filled id removes another order |
| Depth.DepthAgrees | zkapp/engine/src/lib.rs:270-307 | in every valid book the snapshot summarises the list, and a level's quantity is exact if and only if its total fits in 64 bits |
| Wal.WalHandler.WriteEntry | zkapp/engine/src/wal.rs:25-29 | file and write buffer together grow by the entry, or by a proper prefix of it only if the buffer was within 8 bytes of its 8192 at that point and could not be flushed; success iff nothing is pending |
| Wal.WalHandler.ReadAll | zkapp/engine/src/wal.rs:30-59 | the loop ends and returns the entries up to the first that does not decode; a missing file reads as empty |
| Wal.ReadsBack | zkapp/engine/src/wal.rs:30-59 | a whole log reads back as the entries written |
| Wal.ReadsOn | zkapp/engine/src/wal.rs:41-58 | with more bytes behind it a file reads as before, and then on from where reading stopped |
| Wal.CutReadsPrefix | zkapp/engine/src/wal.rs:41-58 | a log cut at any byte reads back as exactly its whole entries |
| Wal.WholeIsMaximal | zkapp/engine/src/wal.rs:41-58 | that prefix is the longest whose bytes are all there |
| Wal.EveryPrefixIsReachable | zkapp/engine/src/wal.rs:41-58 | every number of entries, in the middle of a bundle or not, is what some cut leaves |
| Bincode.StandardIsSelfDelimiting | zkapp/engine/src/wal.rs:26-45 | the variable-length entry layout reads back before any bytes and never from a proper prefix |
| Bincode.IntLayout | zkapp/engine/src/wal.rs:26 | an integer up to 250 is its own byte; a larger one a marker 251, 252 or 253 and 2, 4 or 8 bytes that spell it, least significant first |
| Bincode.PlaceLayout | zkapp/engine/src/lib.rs:69-77 | tag 0, then id, user, side (bid 0, ask 1), price and quantity |
| Bincode.CancelLayout | zkapp/engine/src/lib.rs:78-82 | tag 1, then id and user |
| Bincode.StandardIsCompact | zkapp/engine/src/wal.rs:26-45 | no byte string reads as an entry in fewer bytes than writing that entry takes |
| Bincode.DamageInventsOperation | zkapp/engine/src/wal.rs:41-58 | behind any log, one byte of one cancellation and all of another read back as a third that nobody submitted |
| Bincode.AppendAfterCut | zkapp/engine/src/wal.rs:13-23 | whatever is appended after a cut entry reads back iff nothing was left of the cut one; otherwise no sequence starting with the other kind of entry does |
| Processor.Replay | zkapp/engine/src/processor.rs:82-97 | replaying entries into a fresh book gives the book after that history |
| Processor.MarketProcessor.constructor | zkapp/engine/src/processor.rs:69-113 | recovery replays the entries the file still yields, none if it cannot be read, and appends behind the file as found in either case |
| Processor.MarketProcessor.Execute | zkapp/engine/src/processor.rs:159-175 | log first, then execute, whatever the write returns; live book stays the replay of all logged entries, and the log holds all of the entry if the buffer had room |
| Processor.MarketProcessor.HandleCommand | zkapp/engine/src/processor.rs:130-255 | from the command alone: a placement logs its own id, user, side, price and quantity, a bundle those of each request in order, a cancel its id and user, nothing else logs; an order that nobody meets is answered by exactly its own placement, trades are within the request's limit, a cancel reports its id iff it hit; auctions and depth as specified; live book equals the replay of recovered and logged entries |
| Processor.MarketProcessor.Bundle | zkapp/engine/src/processor.rs:187-226 | each new log entry has the id, user, side, price and quantity of its own request, in order; events returned in order |
| Processor.MarketProcessor.ResolveAuctions | zkapp/engine/src/processor.rs:257-305 | a tick removes exactly the due auctions and announces each once, in whatever order they are visited |
| Recovery.CutLogRecovers | zkapp/engine/src/wal.rs:25-59 | of a partly written and then cut log the whole entries come back, all of them iff nothing was pending or cut |
| Recovery.FrontRecovers | zkapp/engine/src/wal.rs:41-58 | of a log with damage behind its first entries, cut at any byte, those that are whole come back first, and alone if the cut is not behind all of them |
| Recovery.Reread | zkapp/engine/src/processor.rs:76-97 | a restart from a cut within the bytes found at start reads a prefix of what was read then; a later cut reads all of it again and then on from where reading stopped, torn start or not |
| Recovery.AllReadIff | zkapp/engine/src/wal.rs:25-59 | behind a start without a torn entry, everything is read back iff no entry lost bytes and nothing is pending or cut |
| Recovery.AllInStartsClean | zkapp/engine/src/wal.rs:13-29 | after such a crash the next start is without a torn entry again |
| Recovery.Restart | zkapp/engine/src/processor.rs:76-113 | after a crash at any byte the book is that of the entries read; nothing recovered at the previous start is lost by a later crash; after a clean start the undamaged entries come next, and every operation is back iff none was damaged, pending or cut, and then the book is the live book, slot for slot |
| Recovery.WrittenReread | zkapp/engine/src/wal.rs:30-59 | if the start is as the layout writes it, a cut anywhere gives the undamaged entries that are whole, and in an undamaged log exactly those, for every self-delimiting layout |
| Recovery.StaysClean | zkapp/engine/src/wal.rs:13-29 | a log that started without a torn entry reads back old and new entries |
| Auctions.AuctionOutcome | zkapp/engine/src/processor.rs:132-283 | in every run the bids of an intent fall into consecutive auctions, each closed by the first tick 500 ms or more after its first bid, with one announcement each, in order, naming its winner |
| Auctions.ResolutionAnnounces | zkapp/engine/src/processor.rs:270-282 | the largest key of the amount map is the largest bid, and its solver the last to bid it |
| ConsensusTypes.CanonicalBytesInjective | evice-multi-sequencer/src/consensus/types.rs:33-39 | for keys of the fixed size the signed bytes determine round, hash and key |
| ConsensusTypes.CanonicalBytesAre | evice-multi-sequencer/src/consensus/types.rs:33-39 | the signed bytes by position: eight that spell the round, most significant first, then the hash, then the key, and no other bytes |
| ConsensusTypes.VerifyVoteMeans | evice-multi-sequencer/src/consensus/engine.rs:687-716 | a vote is valid iff its voter is listed with a key of 1312 bytes under which the signature is good for exactly those bytes |
| ConsensusTypes.OwnVoteMeans | evice-multi-sequencer/src/consensus/types.rs:27-31 | the node's own vote names round, hash and address, and signs those bytes with its own key in them |
| ConsensusTypes.VerifyBatchMeans | evice-multi-sequencer/src/consensus/engine.rs:718-744 | a header is valid iff its authority is listed with a key of 1312 bytes and a VRF key under which signature and proof are good |
| ConsensusTypes.QuorumIsTwoThirds | evice-multi-sequencer/src/consensus/engine.rs:426-436 | a number of votes is a quorum iff it is more than two thirds of the address book, for every size, the empty one included |
| ConsensusTypes.FixedSizeCanBind | evice-multi-sequencer/src/crypto.rs:13-16 | signatures of 2420 bytes can meet the assumptions made on signatures |
| Certificates.VerifyCertificate | evice-multi-sequencer/src/consensus/engine.rs:557-580 | the counting loop accepts iff more than two thirds of the address book are counted |
| Certificates.SignersAre | evice-multi-sequencer/src/consensus/engine.rs:563-575 | a validator is counted iff its first listed signature is a valid one |
| Certificates.Accountability | evice-multi-sequencer/src/consensus/engine.rs:557-580 | two accepted certificates of one view for different batches share at least (n-1)/3+1 validators with valid signatures on both |
| Certificates.EmptyBookAcceptsNothing | evice-multi-sequencer/src/consensus/engine.rs:577-579 | with an empty address book no certificate is accepted |
| Certificates.FormedAccepted | evice-multi-sequencer/src/consensus/engine.rs:461-470 | a certificate formed from distinct voters is accepted iff signatures of more than two thirds of the address book verify under the batch's round |
| Certificates.ProducerVerifierAgree | evice-multi-sequencer/src/consensus/engine.rs:444-470 | if all votes verify and name the batch's round, every peer accepts the certificate |
| Certificates.GoodByRound | evice-multi-sequencer/src/consensus/engine.rs:563-575 | if no signature is good for two rounds of one vote, the verified votes good under a round are those that name it |
| Safety.HashEndorsed | evice-multi-sequencer/src/consensus/engine.rs:403-409 | the unchecked push of the own vote never repeats a voter |
| Safety.HashRecorded | evice-multi-sequencer/src/consensus/engine.rs:543-552 | recording a delivered vote keeps voters distinct and every vote verified or own |
| Safety.SafeRun | evice-multi-sequencer/src/consensus/engine.rs:316-555 | in every interleaving each unprocessed hash has at most one own vote, recorded or owed, naming the pending batch's round, sound distinct votes, and only batches delivered validly or made here are pending |
| Confirmations.QuorumSafety | evice-multi-sequencer/src/consensus/engine.rs:425-508 | every confirmed batch had votes of more than two thirds of the address book, from distinct addresses: this node's own for the batch's round, all others verified on delivery; it was made here or delivered with a header proved under its authority's listed keys; no hash is confirmed twice |
| Confirmations.BroadcastAccepted | evice-multi-sequencer/src/consensus/engine.rs:461-495 | a certificate broadcast in a run is accepted by peers iff signatures of more than two thirds of the address book verify under the batch's round; with the node's key listed and signatures not good for two rounds, iff that many recorded voters named that round |
| Confirmations.SlidingWindow | evice-multi-sequencer/src/consensus/state.rs:45-55 | the retained batches are a suffix of the confirmed ones; exactly the last min(256, k) iff no prune was skipped or at most 256 exist |
| Confirmations.RetainedProcessed | evice-multi-sequencer/src/consensus/engine.rs:472-481 | every retained batch is that of its confirmation, counted from the end, and its hash is processed |
| Confirmations.HighestView | evice-multi-sequencer/src/consensus/engine.rs:483-485 | the highest view is the maximum of 0, all confirmed rounds and all accepted certificate views |
| Memory.HighestCertificate | evice-multi-sequencer/src/consensus/engine.rs:461-627 | after any run the highest certificate is the genesis one (32 zero bytes, view 0), that of a confirmation with its hash, round and votes, or a delivered accepted one whose batch is known or asked for; only batches of accepted certificates are asked for |
| Memory.CacheWindow | evice-multi-sequencer/src/consensus/engine.rs:316-340 | after any run the cache is the last min(1000, k) of the k messages that passed the duplicate check, and no message passed it twice within 1000 |
| Memory.EachAdmitted | evice-multi-sequencer/src/consensus/engine.rs:316-353 | when all tasks are done exactly the delivered messages have passed the check |
| Delivery.LiveRun | evice-multi-sequencer/src/consensus/engine.rs:316-555 | in every interleaving no delivered message is lost: it has had its effect or some task still carries it, through duplicates and cache evictions |
| Delivery.QuiescentOutcome | evice-multi-sequencer/src/consensus/engine.rs:316-555 | when all tasks are done a hash is processed iff it has a valid or self-made proposal and backers of more than two thirds of the address book, and is not stalled; if unprocessed, it has both iff it is stalled |
| Delivery.DeliveryOrderIndependence | evice-multi-sequencer/src/consensus/engine.rs:316-555 | two finished runs with the same messages, own batches and unendorsed batches settle the same hashes, and process the same ones if the same ones stalled |
| Outcomes.ConfirmedBatchesExactly | evice-multi-sequencer/src/consensus/engine.rs:425-508 | at any point of a run in which no two known batches share a hash, the confirmed batches are exactly the known ones with a processed hash |
| Outcomes.QuiescentView | evice-multi-sequencer/src/consensus/engine.rs:557-627 | when all tasks are done the highest view is the largest of 0, the confirmed rounds and the views of all valid delivered certificates |
| Outcomes.OutcomeOrderIndependence | evice-multi-sequencer/src/consensus/engine.rs:316-627 | two finished runs with the same messages, own batches and aborted batches confirm the same batches and reach the same highest view, if no two batches share a hash |
| WitnessRuns.AloneIsARun | evice-multi-sequencer/src/consensus/engine.rs:65-75 | at any point of any run a task can run to its end alone, and that is a legal run |
| WitnessRuns.HandledOnArrival | evice-multi-sequencer/src/consensus/engine.rs:316-353 | a message handled without interruption has the effect of a legal run |
| WitnessRuns.ProposedOnItsOwn | evice-multi-sequencer/src/consensus/engine.rs:270-312 | a proposer flow without interruption has the effect of a legal run |
| WitnessRuns.AbortStrandsBatch | evice-multi-sequencer/src/consensus/engine.rs:122-125 | for any number of validators, a run that ends with a batch stalled: it has its proposal and quorum and is not processed |
| WitnessRuns.RepeatedBatchConfirmsItself | evice-multi-sequencer/src/consensus/engine.rs:303-312 | why own batches are assumed new: pushed k times without a check, the own vote alone confirms a batch iff k reaches the quorum |
| WitnessRuns.WindowOverflows | evice-multi-sequencer/src/consensus/engine.rs:479-499 | a run that retains 257 batches |
| WitnessRuns.OutsiderCertificateRejected | evice-multi-sequencer/src/consensus/engine.rs:293-312 | for any number of validators, a node outside the address book confirms a batch with a certificate no peer accepts |
| WitnessRuns.StaleRoundRejected | evice-multi-sequencer/src/consensus/engine.rs:461-470 | a batch confirmed with no vote to spare, one of them for another round: all votes verified, and no peer accepts the certificate |
| WitnessRuns.ArrivalPicksBatch | evice-multi-sequencer/src/lib.rs:120-132 | the same messages in two orders, two batches with one header among them: one run confirms the one, the other run the other |
| WitnessRuns.CertificateOvertakesTick | evice-multi-sequencer/src/consensus/engine.rs:88-132 | a certificate accepted between the driver's read and write leaves the written round not past it |
| ConsensusEngine.Engine.constructor | evice-multi-sequencer/src/consensus/state.rs:64-84 | the initial state of a node, reached by the empty run |
| ConsensusEngine.Engine.PruneStaleData | evice-multi-sequencer/src/consensus/state.rs:45-55 | keeps exactly the votes of unprocessed hashes and the last 256 confirmed batches |
| ConsensusEngine.Engine.PruneConfirmedProposals | evice-multi-sequencer/src/consensus/state.rs:88-95 | keeps exactly the pending entries of unprocessed hashes |
| ConsensusEngine.Engine.ProcessVotesForBatch | evice-multi-sequencer/src/consensus/engine.rs:425-508 | run alone, has the effect of the counting and clearing sections; in plain terms: nothing unless the hash is pending, unprocessed and has votes of more than two thirds, otherwise processed, confirmed, certified and pruned |
| ConsensusEngine.Engine.HandleVelocityVote | evice-multi-sequencer/src/consensus/engine.rs:510-555 | run alone, has the effect of the vote's sections: nothing for a processed hash or an invalid vote, otherwise recorded unless its voter has one, and counted |
| ConsensusEngine.Engine.HandleBatchProposal | evice-multi-sequencer/src/consensus/engine.rs:355-423 | run alone, has the effect of the proposal's sections: nothing if invalid or pending, otherwise pending, own vote for the batch's round recorded, and counted |
| ConsensusEngine.Engine.RunProposerFlow | evice-multi-sequencer/src/consensus/engine.rs:270-312 | run alone, has the effect of the proposer's sections (pending, own vote for the batch's round, counted) and leaves a state that a legal run reaches |
| ConsensusEngine.Engine.HandleNewQuorumCertificate | evice-multi-sequencer/src/consensus/engine.rs:557-627 | run alone, adopts a certificate counted for more than two thirds with a higher view, asks for its batch if not pending, and changes nothing else |
| ConsensusEngine.Engine.HandleConsensusMessage | evice-multi-sequencer/src/consensus/engine.rs:316-353 | run alone, drops remembered messages, remembers the others among the last 1000 and dispatches them, and leaves a state that a legal run with this delivery reaches |
| ConsensusEngine.Engine.DriverRead | evice-multi-sequencer/src/consensus/engine.rs:88-120 | the section under the read lock computes the next round and step: after a certificate the round past its view at step 0, after a timeout the next step, or past the last proposer the next round at step 0; past everything confirmed or accepted at that point unless it wraps |
| ConsensusEngine.Engine.DriverWrite | evice-multi-sequencer/src/consensus/engine.rs:122-132 | the section under the write lock sets round and step and nothing else |
| ConsensusEngine.Engine.DriverTick | evice-multi-sequencer/src/consensus/engine.rs:88-132 | both sections with nothing in between: past everything confirmed or accepted so far unless the round wraps |
| ConsensusEngine.RoundAfterWrite | evice-multi-sequencer/src/consensus/engine.rs:88-132 | with messages handled between the sections: past what was confirmed or accepted at the read, and past what is by the write iff past the highest view by then |
| ConsensusEngine.ProcessedExactly | evice-multi-sequencer/src/consensus/engine.rs:425-508 | in every valid engine a hash is processed iff what was delivered and made settles it |
| ConsensusEngine.ConfirmedExactly | evice-multi-sequencer/src/consensus/engine.rs:472-481 | in every valid engine the confirmed list is the last min(256, k) of the k confirmations, each with a quorum of distinct sound votes, no hash twice |
| ConsensusEngine.OrderDoesNotMatter | evice-multi-sequencer/src/consensus/engine.rs:316-627 | two valid engines of one node given the same messages and own batches process the same hashes, and confirm the same batches and reach the same highest view if no two share a hash |
| Pacemaker.TickMovesForward | evice-multi-sequencer/src/consensus/engine.rs:101-120 | the step stays within the committee and an advance is strictly forward iff the round does not wrap |
| Pacemaker.TickPlainly | evice-multi-sequencer/src/consensus/engine.rs:101-120 | a round ends iff it is certified or its last proposer times out, and is followed at step 0 by the smallest round past it and the view read (round 0 after the last); otherwise a timeout moves one step |
| Pacemaker.StepCountsTimeOuts | evice-multi-sequencer/src/consensus/engine.rs:80-132 | over any run of ticks every round is entered at step 0, and the step is the number of timeouts since |
| Pacemaker.EveryProposerHasItsTurn | evice-multi-sequencer/src/consensus/engine.rs:80-132 | every step up to the current one has been the current one since the round was entered |
| Pacemaker.TimeOutsRaiseRound | evice-multi-sequencer/src/consensus/engine.rs:110-119 | the round goes up after exactly as many timeouts as proposers are left, at most max(1, committee) |
| Pacemaker.DriverMonotone | evice-multi-sequencer/src/consensus/engine.rs:80-132 | over any run of ticks without a wrap round and step never go back |
| Pacemaker.TickPassesCertificates | evice-multi-sequencer/src/consensus/engine.rs:88-132 | read at one point of a run and written at a later one, the round is past the view read iff it does not wrap, then past all confirmed or accepted up to the read, and past all up to the write iff past the highest view then |

## Left out

- Networking, gossip, peer scoring, gRPC, WebSocket, FFI and command-line code: plumbing around the two cores.
- Cryptography, the keystore and the committee shuffle: foreign code; receivers do not check who was elected.
- Building a proposal (draining the mempool, previous hash, VRF, signing): the machine lets a node propose any batch with a new hash, which covers what the flow builds.
- Outgoing messages, penalties and event broadcasts: sent, never read back; a send that fails loses only the message.
- Premature proposals: nothing in the repository ever queues one, so the driver's replay of them is not modelled.
- Liveness, deadlock freedom and bounded channels: they depend on the runtime's fairness.
- Order timestamps and the book's sequence counter: constants that nothing reads.
- A closed outbound channel for auction announcements: announcements are taken to be sent.
- Smart contracts, prover, simulator, settlement client and transaction types: small, placeholder or library wrappers.
