# The cyclic atomic swap, for every number of parties

N participants on Bitcoin and Cardano each lock an amount; each one claims the lock of its *target*, and
the targets form one ring. Before anybody locks, all parties sign 2N transactions together in two MuSig2
rounds: N refunds, valid after staggered timelocks, and N spends, which only become valid with the sum of
all parties' secrets. A leader is elected by commit and reveal. When all locks are confirmed everybody but
the leader reveals its secret to the leader, the leader's spend publishes the sum, and everybody else
extracts it from there.

The project models the engine of `swap-daemon` and proves, for every ring size and every interleaving,
what the swap is for, and exactly how far it goes. An honest party that is in time and not hurt, whose claim is
pre-signed over the same adaptor point as the leader's and whose two locks are on Bitcoin, never loses, whatever
anybody else does and sends (`ChainTheorems.NoLoss`). None of these conditions can be spared: against any misbehaviour
such a party is safe if and only if the last two hold (`Limits.SafeExactly`), each can fail from a fresh
session on (`Crossing.CrossedSessionLoses`, `Losses.OwnTakenLoses`, `TargetTakenLoses`), what hurts is
characterised exactly (`FundedSessions.ToleratedExactly`), and being late or hurt does lose
(`LossWitness.LossesHappen`). All-honest swaps meet them all: they are atomic from the very first message on, on
every mix of chains (`HonestRuns.HonestAtomicity`). Nobody funds without a way out (`NetworkSafety.SafeExit`), the
setup cannot hang (`NetworkProgress.NobodyStalls`, `RunIsFinite`), honest parties agree on leader and adaptor point
whatever the others send (`Agreement.OneSetting`), and an undisturbed swap can always be carried on
(`NetworkCompletion.RestIsReachable`) to its end, with every lock claimed and paid, all of it but the fees, to the
one participant that was to have it (`HonestCompletion.EverythingClaimed`).

## How the modules fit together

- `Ring`, `Timelocks`, `Adaptor`, `CardanoFees` are the arithmetic: the ring check and distances as the
  loops they are, locktimes with their machine words, secrets and signatures over an abstract group of odd
  prime order, Cardano amounts and fees.
- `Protocol` gives each message and poll as a function on the value of one session, and `Contents` says what its
  transactions, timelocks and elections come to in terms of the agreed parameters alone. `SessionObject` and
  `DaemonObject` are the same steps as methods that update maps and sets in place; every method is
  proved to do to the object what the function does to the value, and the daemon keeps every live session
  polled.
- `PartyInvariant`, `PartySteps`, `SigningSteps`, `FundingSteps`, `ClaimSteps` and `Handling` prove that one
  party among honest peers keeps its invariant. `Network`, `NetworkInvariant`, `NetworkSteps`,
  `NetworkSafety` and `NetworkProgress` put N of them on FIFO links; `GoodCase` and `NetworkCompletion` follow
  them to the end.
- `Effects`, `NonceUse`, `FundedSessions` and `AnySetup` need no honest peers at all: any session, any call.
  `Agreement` is what several honest parties then have in common. `Disorder` is what two honest messages in the
  wrong order, or one handled twice, do to a fresh session, and `Crossing` what a second adaptor point does.
- `Chain`, `ChainSessions`, `ChainSafety` and `ChainTheorems` are the time after a party has locked, with any
  set of misbehaving parties that may send anything and take what the chain lets them take. `Losses`,
  `LossWitness`, `Stranding` and `LeaderWitness` are the runs that end badly; `Limits` says that no others do.
- `Handover` and `HonestRuns` join the two: N honest parties with ledger and clock from the first message on.
  Each such run is a run of the chain phase in which nobody is hurt. `HonestCompletion` follows it to the end.

## Hypotheses

- Links between honest parties are FIFO and deliver exactly once. One pooled stream per peer is written in
  order and one reader per connection forwards lines in order. `Disorder.DisorderLosesRefund` and
  `Disorder.RepeatSubmitsAgain` are sequences from a fresh session that show what fails without this.
- A submission is atomic: it is accepted if and only if the output is unspent, the witness is right and the
  timelock is open. The chain reads the transaction for that (`Chain.Accepts`): it has to spend the lock that is there,
  with its owner, amount and deadline, to return it to that owner or to pay it to the claimant, and its own locktime has
  to have passed. That a refund carries everybody's signatures was checked when it was finalized. A spend's witness is
  right if its pre-signature is over the adaptor point whose logarithm it is adapted with. A Cardano signature is over
  the lock's transaction id alone (swap.ak:25-45, refund.rs:106-109), and every participant holds all of them
  (multisig.rs:258, 274); so once the leader's spend is published, or the timelock of a refund has passed, whoever
  misbehaves can take the lock (`Chain.MayTake`). It can also submit refunds and claims of honest parties for them, but
  the claim of a leader only if the leader is not honest.
- At each tick a party polls for the leader's spend before its refund window, on one view of the chain;
  `Losses.WindowFirstLoses` is the loss in the other order.
- In the chain phase nothing is assumed about what peers send. The world keeps three records about honest
  parties, and the theorems name them. A party is *late* once its target's refund is acceptable before it has
  handled a tick with its own window open; `Losses.LateLoses` shows the loss, `Timelocks.MomentToServe` when the
  windows leave room to be in time. A party is *hurt* once it has handled a message that a funded session
  does not stand (`FundedSessions.ToleratedExactly`), and *crashed* if that was a panic;
  `Losses.HurtLoses` shows the loss.
- An honest party enters the chain phase when it submits its lock, with its own refund signed, the common leader and
  the leader's spend pre-signed over the common adaptor point. Of any setup, with any peers, `AnySetup.SetupYields`
  proves everything else that is asked of it, and that its own refund, the leader and the two points are all that
  can be missing. That there is one leader and one point is no assumption as long as nobody forges an honest
  party's partial signature: `Agreement.OneSetting`. That the own spend is over that point too is a condition of
  the theorems, which a party can check before it locks. Among honest peers nothing is missing
  (`Handover.FundedIsEquipped`).
- Non-leaders claim only after the leader's spend is on chain, and the aggregate secret cannot be produced
  while an honest non-leader has kept its own secret. `Losses.OffChainLoses` is the loss if a leader hands the
  aggregate secret on without spending. That nobody can know it earlier takes more than the code asks for: a point
  comes with no proof that its sender knows the logarithm, and none is bound before the others are seen, so a
  participant that sends its point last, or one under another's id, decides the sum of all points
  (`Adaptor.OneEntryDecides`).
- A session is only made once the ring check has passed (session.rs:65-67), so every session of the theorems has a
  ring; off a ring the modelled step functions panic.
- In the network of honest parties a Cardano participant comes with a known system start
  (`Protocol.LocksBuildable`); without one every session panics when it builds its locks.

## What the proofs say about the code

- A funded session still takes every message of the setup. One more `LeaderElectionCommitment` sends it back
  to `AwaitingLeaderElectionNonces` (session.rs:241-247), where it looks for no spend; a window poll then
  ends it, so one message makes an honest party that is in time lose both amounts
  (`FundedSessions.CommitmentSetsBack`, `Losses.HurtLoses`). A `LeaderElectionNonce` that does not match panics
  (`FundedSessions.NonceMayPanic`), and every `PartialSignature` panics or submits the lock once more
  (`FundedSessions.PartialHurts`).
- The check before funding looks at partial signatures, not at the signed refund. A partial signature
  that overtakes its public nonce leaves a party that has locked without a refund
  (`Disorder.DisorderLosesRefund`).
- Every live state stores an adaptor point (session.rs:220), and each role is signed over the sum of the points as
  they are at that moment (multisig.rs:93, 227). A peer that sends a second point between two roles leaves a party
  with pre-signatures over two different points, and nothing keeps the party from funding
  (`Crossing.PointChangesBetween`). It then completes on a spend that the chain refuses
  (`Crossing.CrossedSessionLoses`).
- A Cardano lock is safe from other participants only as long as nobody misbehaves. An honest party that is in time
  can find its own lock or its target's taken (`Losses.OwnTakenLoses`, `Losses.TargetTakenLoses`), and this is so
  for the leader too (`Limits.LeaderSafeExactly`).
- A leader whose last secret comes wrong completes on a spend the chain refuses; from then on it ignores
  everything and never submits its refund, so its lock stays where it is unless somebody else moves it
  (`Stranding.WrongSecretStrands`). Every honest setup can come to that (`LeaderWitness.LeadersStrand`).
- The `LockTx` poll (daemon.rs:366-396) does not look at the state. A session that has ended is taken back
  to waiting, and a non-leader then reveals its secret, exactly when the poll confirms the last lock
  (`DaemonObject.EndIsLeftExactly`). In an undisturbed swap this happens to a leader that collects all
  secrets before it has confirmed the last lock itself; it has claimed by then.
- A peer message for a session id the daemon does not have panics the daemon (daemon.rs:339-342), while a
  chain poll for one does nothing (`DaemonObject.Daemon.HandlePeerMessage`, `HandleChainPoll`). A session put
  under an id in use can leave a forgotten task running beside a new one
  (`DaemonObject.Daemon.InsertSession`).
- After a poll has ended a session, `maybe_spawn_pollers` brings back the pollers of its unconfirmed
  locks that were cancelled just before (`DaemonObject.EndedKeepsLockPollers`). The task of a confirmed lock is
  dropped from the table without being aborted (`DaemonObject.ForgottenOk`).
- Whether aggregating points or secrets panics can depend on the iteration order of the hash map
  (`Adaptor.AggregateAlwaysSucceeds`).
- The draft fee of 616,155,381 lovelace makes the draft's output wrap for smaller locks
  (`CardanoFees.AttachBalances`). The fee is computed for a transaction measured with a provisional fee; if
  the output then needs a wider integer, the submitted fee is too low (`CardanoFees.CrossingUnderpays`).
- On Cardano the daemon waits one slot longer than the ledger does, so windows of a single second leave no
  moment to be in time (`Timelocks.MomentToServe`).
- The documentation of `distance_from_leader` (utils.rs:576-577) gives 2 for its example; the code, followed
  here, gives 1.

## Model

| member | source | states |
|---|---|---|
| `ChainTheorems.NoLoss` | formal-methods/README.md:124 | for every ring, every set of misbehaving parties, every message anybody sends and every run: an honest party that is neither late nor hurt, whose claim is over the adaptor point of the leader's and whose own lock and target's lock are on Bitcoin (or nobody misbehaves), never has its own lock claimed or taken while its target's is returned or taken by somebody else |
| `Limits.SafeExactly` | swap-daemon/src/protocol/session.rs:308-329 | the two conditions are exact: for every ring an honest non-leader that has just locked, with windows that leave it a moment, cannot lose in time and unhurt against anybody, and is settled by every tick with its window open, if and only if its claim is over the point of the leader's and its own lock and its target's are on Bitcoin |
| `Limits.LeaderSafeExactly` | swap_validator/validators/swap.ak:25-45 | an honest leader, late or hurt as it may be, cannot lose against anybody if and only if its own lock is on Bitcoin |
| `Crossing.PointChangesBetween` | swap-daemon/src/cryptography/multisig.rs:92-96 | for every ring, party and peer: honest messages in order, then a second point of the peer, its late public nonce and everybody's partial signatures over the points as they now are, lead a new session to fund once with its refund signed, its own spend pre-signed over the new sum of points and all others over the old one |
| `Crossing.CrossedSessionLoses` | swap-daemon/src/protocol/session.rs:214-231 | that party, if no leader and if the two sums differ, can be in time and not hurt, not be settled by a tick with its window open, and have lost |
| `Losses.CrossedLoses` | swap-daemon/src/cryptography/multisig.rs:226-230 | in every ring a party whose claim is over another point than the leader's can come to a tick in time that does not settle it, and to its loss |
| `Losses.OwnTakenLoses` | swap-daemon/src/protocol/refund.rs:106-109 | and so can a party with its own lock on Cardano: somebody else is first with its refund signature |
| `Losses.TargetTakenLoses` | swap_validator/validators/swap.ak:26-31 | and one with its target's lock on Cardano: somebody else is first with its spend signature |
| `Agreement.OneSetting` | swap-daemon/src/protocol/session.rs:202-373 | for every ring and every set of honest parties, whatever calls they see: if nobody forges an honest party's partial signature, windows have a length and locktimes fit, there is one leader and one adaptor point with which every honest party that has funded and has its refund signed meets all that joining the chain phase asks of a session |
| `Agreement.OneLeader` | swap-daemon/src/protocol/refund.rs:44-162 | a party that holds a signed refund has the leader of every party whose partial signatures nobody forges: a refund's message tells its distance from the leader, if windows have a length and locktimes fit |
| `Agreement.SameHeld` | swap-daemon/src/cryptography/multisig.rs:198-276 | what two such parties hold for the same role, refund or pre-signature, is over the same message, nonces and adaptor point |
| `Agreement.HeldStays` | swap-daemon/src/cryptography/multisig.rs:198-276 | over any further calls no refund and no pre-signature a party holds is replaced by one over other inputs, unless its own partial signatures are forged |
| `FundedSessions.ToleratedExactly` | swap-daemon/src/protocol/session.rs:202-373 | with well-formed values and sums that exist (a cancelling sum of secrets or a malformed public nonce panics in the source and not here), a message to a funded session neither panics, nor submits the lock again, nor changes the state other than through a secret, if and only if the session has ended or it is a point (unless the last one while the state awaits points), a public nonce, an announcement, a secret, a leader nonce that hashes to the stored commitment, or a commitment while the state awaits nonces |
| `LossWitness.LossesHappen` | swap-daemon/src/protocol/session.rs:232-248 | for every ring, every honest setup and windows further apart than the daemon's margin there are reachable worlds in which an honest non-leader has lost: one where it was late, one where it was in time and had been sent one late commitment |
| `ChainTheorems.OneTickSettles` | swap-daemon/src/daemon.rs:397-431 | under the conditions of NoLoss one tick (spend poll, then window poll) with the own window open leaves a confirmed honest non-leader with its lock returned or its target claimed |
| `ChainTheorems.LeaderNeverLoses` | swap-daemon/src/daemon.rs:397-426 | the leader's lock is claimed only in worlds where the leader's own target is claimed too, whoever misbehaves and whatever is sent; late or hurt, the leader loses nothing but a lock that others can take |
| `ChainTheorems.LeaderGetsItsClaim` | swap-daemon/src/protocol/session.rs:336-367 | an honest leader, hurt or not, that handles the last secret while its target is on chain and the first window is closed completes, and gets its claim exactly when the secrets it holds add up to the aggregate secret and its own pre-signature is over the point, which it is unless the leader is hurt |
| `ChainTheorems.ReturnsBeginFirst` | swap-daemon/src/utils.rs:585-604 | induction along the ring: with all parties honest and in time, any returned lock implies that the lock at distance one was returned |
| `ChainTheorems.Atomicity` | formal-methods/README.md:123 | with all parties honest, in time and not hurt and their claims over the point, no reachable world has one lock claimed and another returned, for every N and whenever each of them locked |
| `HonestRuns.HonestAtomicity` | formal-methods/README.md:123 | N honest parties from the first message on, with ledger and clock, however signing, confirming and polling interleave: with nobody late, no lock is claimed while another is returned |
| `HonestRuns.HonestNoLoss` | formal-methods/README.md:124 | in the same runs whoever is served in time does not lose, whatever happens to the others |
| `HonestRuns.HonestRunsAreChainRuns` | swap-daemon/src/daemon.rs:332-434 | every such run, seen from the chain, is a run of the chain phase in which nobody is hurt and nobody panics |
| `HonestRuns.NextKeeps` | swap-daemon/src/daemon.rs:332-434 | each event of such a run, a tick of two polls included, is one event of the chain phase or none |
| `HonestRuns.LockedTolerates` | swap-daemon/src/protocol/session.rs:202-373 | what honest peers still send to a party that has locked is all of the kind it stands |
| `HonestCompletion.EverythingClaimed` | formal-methods/README.md:125-126 | in such a run, on every mix of chains: if by the end no lock has been refused, no refund window is open and nothing is left to start, deliver, confirm or find, every lock is claimed, and the claim submitted for it spends all that its owner has locked and pays it to the one participant whose target the owner is |
| `HonestCompletion.NextMeets` | swap-daemon/src/daemon.rs:332-434 | each event of such a run keeps ledger and sessions together: a lock is claimed exactly when its claimant has submitted its spend with the sum of all secrets, and nothing else is spent |
| `Handover.FundedIsEquipped` | swap-daemon/src/protocol/session.rs:308-329 | among honest peers a party that funds has all that the chain phase asks for, its own refund and both pre-signatures over the sum of all points included |
| `AnySetup.SetupYields` | swap-daemon/src/protocol/session.rs:202-373 | after any calls whatever on a new session, one that has been in `Funding` is a funded session; it can be refunded on chain if and only if its leader is the common one and its own refund is signed, and can also claim if and only if moreover its own spend and the leader's are pre-signed over the point |
| `AnySetup.EverythingRight` | swap-daemon/src/protocol/session.rs:202-373 | after any calls whatever on a new session every lock, unsigned and signed transaction it holds, and everything it submits in its next call, has the content it should: locks their owner, amount, chain and deadline, refunds the own lock, owner and locktime, spends the target's lock and the claimant |
| `FundedSessions.CommitmentSetsBack` | swap-daemon/src/protocol/session.rs:232-248 | a commitment takes every funded session back to awaiting nonces |
| `FundedSessions.NonceMayPanic` | swap-daemon/src/protocol/leader_election.rs:122-137 | a leader nonce panics a session with open rounds if and only if it does not hash to the stored commitment of its sender, and otherwise is harmless |
| `FundedSessions.PartialHurts` | swap-daemon/src/protocol/session.rs:308-329 | every partial signature to a funded session panics or submits the lock once more, and the session waits again or has failed by the answer |
| `FundedSessions.MessageKeeps` | swap-daemon/src/protocol/session.rs:202-373 | no message of any kind takes away an entry that a session with open rounds holds for refund and claim, or its leader |
| `FundedSessions.MessageKeepsHeld` | swap-daemon/src/protocol/session.rs:202-373 | and none replaces the inputs of a pre-signature or a signed refund but a partial signature for the same role |
| `Losses.LateLoses` | swap-daemon/src/daemon.rs:416-427 | in every ring an honest non-leader that has just locked can come to a reachable world where it is late and has lost |
| `Losses.HurtLoses` | swap-daemon/src/protocol/session.rs:232-248 | and to one where it is in time and has lost, because of one late commitment |
| `Losses.WindowFirstLoses` | swap-daemon/src/daemon.rs:397-427 | the order within a tick: in a reachable world the tick as assumed settles the party, the one that checks the window first leads to its loss in two more steps |
| `Losses.OffChainLoses` | swap-daemon/src/daemon.rs:397-415 | if the party's claimant gets the aggregate secret without the leader's spend on chain, a step the model does not allow, the party is served in time and has lost |
| `LossWitness.SuchASession` | swap-daemon/src/protocol/session.rs:308-329 | every honest setup, for all random values, brings any non-leader to the session these losses start from |
| `LossWitness.SuchTimes` | swap-daemon/src/protocol/chain_monitor.rs:302-323 | and windows further apart than the daemon's margin leave the moments for them |
| `Stranding.WrongSecretStrands` | swap-daemon/src/protocol/session.rs:336-367 | an honest leader with all locks confirmed that gets one wrong last secret in time completes, and in every continuation nothing is claimed and its lock stays unspent unless somebody else who holds its refund returns it (or, on Cardano, takes it) |
| `Stranding.StrandedStays` | swap-daemon/src/daemon.rs:416-427 | no event but what others do moves the lock of such a leader: it ignores messages and polls, and nothing is claimed |
| `LeaderWitness.LeadersStrand` | swap-daemon/src/protocol/session.rs:336-367 | for every ring and every honest setup: whatever secrets the others reveal, if all of them do not add up to the aggregate secret there is a reachable world in which the last of them strands the leader |
| `ChainTheorems.StepKeeps` | swap-daemon/src/daemon.rs:363-431 | the world invariant is inductive for any message from anybody and any taking of a Cardano lock: locks are spent only with reason, whoever was served in time and can claim is settled, ended sessions ended rightly, and only a hurt party panics |
| `ChainTheorems.RunOk` | swap-daemon/src/daemon.rs:363-431 | the world invariant holds at every point of every run in which honest parties lock one by one |
| `ChainSafety.TickSettles` | swap-daemon/src/daemon.rs:397-427 | what the two polls of a tick have settled for a non-leader, from the invariant alone |
| `ChainSafety.TickKeeps` | swap-daemon/src/daemon.rs:397-427 | a tick keeps the world invariant and settles its party |
| `ChainSessions.MessageOk` | swap-daemon/src/protocol/session.rs:202-373 | every message that a funded session stands, honest or not, keeps all that safety needs of it, without a panic |
| `ChainSessions.AnyMessage` | swap-daemon/src/protocol/session.rs:202-373 | any message at all, if it does not panic, leaves a party its refund and its claim, makes it broadcast no secret and submit at most its lock or the leader's claim |
| `ChainSessions.LockPollOk` | swap-daemon/src/daemon.rs:366-396 | a lock poll keeps the session right and reveals a secret only for a non-leader that has then seen all locks |
| `ChainSessions.SpendPollOk` | swap-daemon/src/daemon.rs:397-415 | for a session with both pre-signatures over the point: the spend poll changes the ledger at most by claiming the own target, and only with the leader's spend published; a non-leader has ended once that spend is published |
| `ChainSessions.RefundPollOk` | swap-daemon/src/daemon.rs:416-427 | the window poll changes the ledger at most by returning the own lock, when the chain accepts it; for a live non-leader with its window open the lock is then returned |
| `ChainSessions.RefundTakenIs` | swap-daemon/src/daemon.rs:416-427 | the refund a party has locked with is taken by the chain, which reads the transaction, if and only if its lock is there and its refund height or slot is reached |
| `NetworkSteps.StepKeeps` | swap-daemon/src/protocol/session.rs:202-373 | the network invariant is inductive over starts, FIFO deliveries and polls in any interleaving, for every N |
| `NetworkSafety.NoPanic` | swap-daemon/src/protocol/session.rs:202-373 | no schedule of honest parties reaches a panic in any handler |
| `NetworkSafety.OneLeader` | swap-daemon/src/protocol/leader_election.rs:158-168 | whoever has elected a leader has elected the same one: in ascending order of the ids the member at the index that the first eight bytes of the hash over all nonces, read as one number, give modulo N; and it has built the lock of every participant with that participant's amount, chain and refund deadline |
| `Contents.IndexIs` | swap-daemon/src/protocol/leader_election.rs:207-210 | the index is the first eight bytes as one number, the first byte weighing most, modulo N |
| `Contents.EveryoneElectable` | swap-daemon/src/protocol/leader_election.rs:158-168 | whoever takes part is elected by some hash |
| `NetworkSafety.CommitBeforeReveal` | swap-daemon/src/protocol/leader_election.rs:93-137 | a party whose nonce is out holds all N commitments, and every stored nonce hashes to its sender's commitment |
| `NetworkSafety.SameSigningInputs` | swap-daemon/src/cryptography/multisig.rs:85-96 | every partial signature ever sent for a role, by whomever, is over the same message, the aggregate of all N public nonces and, for a spend, of all N adaptor points |
| `NetworkSafety.KindsAreDistinct` | swap-daemon/src/protocol/session.rs:202-373 | nobody broadcasts two messages of one kind: one point, commitment, nonce, lock and secret, one public nonce and one partial signature per role |
| `NetworkSafety.HistoryClimbs` | swap-daemon/src/protocol/session.rs:115-118 | every history starts at `Initialized`, ends at the current state, follows the setup path without skipping and after the wait for confirmations holds only later states |
| `NetworkSafety.SafeExit` | swap-daemon/src/utils.rs:251-274 | a party that has been in `Funding` holds its own refund, signed by all over that transaction's own message: it returns the own lock to the party, and its timelock has passed for the chain whenever the daemon finds the window open; and it holds the pre-signatures of all N spends, over the common inputs |
| `NetworkSafety.LockSubmittedOnce` | swap-daemon/src/protocol/lock_funds.rs:117-156 | a party submits its lock once if it has been in `Funding`, never otherwise |
| `NetworkSafety.NoClaimBeforeLocks` | swap-daemon/src/protocol/session.rs:336-367 | if the leader has been in `Claiming`, every other party has seen all N locks confirmed, and all are on chain |
| `NetworkSafety.SecretAfterLocks` | swap-daemon/src/daemon.rs:383-394 | a broadcast secret is its sender's own, its sender is not the leader and has seen all N locks confirmed |
| `NetworkSafety.PlanOfFits` | swap-daemon/src/protocol/session.rs:202-373 | for all nonces, secrets and seeds there is a plan as the theorems above assume it: they speak about every choice of random values |
| `NetworkProgress.NobodyStalls` | swap-daemon/src/protocol/session.rs:212-330 | with nothing left to start or deliver, every party has been through `Funding` |
| `NetworkProgress.LogIsBounded` | swap-daemon/src/protocol/session.rs:202-373 | in every reachable network nobody has broadcast more than 4N + 5 messages |
| `NetworkProgress.WorkShrinks` | swap-daemon/src/networking.rs:139-189 | from every reachable network each start and each delivery strictly lowers the measure of what is left; polls never raise it |
| `NetworkProgress.RunIsFinite` | swap-daemon/src/protocol/session.rs:202-373 | whatever the interleaving, a run has at most N + N*N*(4N + 5) starts and deliveries |
| `NetworkCompletion.SwapCompletes` | swap-daemon/src/daemon.rs:332-434 | at the end of every run in which no lock is refused, no window is found open and spend polls find only what the leader has published, each of the N parties has submitted its own spend, adapted with the sum of all N secrets, and that spend pays it the whole amount its target has locked |
| `NetworkCompletion.RestIsReachable` | swap-daemon/src/daemon.rs:332-434 | from every point of every such run, some continuation of the same kind leads to where nothing is left to do, so the swap can always still complete |
| `NetworkCompletion.StepKeepsTrack` | swap-daemon/src/daemon.rs:332-434 | every event of such a run keeps all N sessions on their way, and whoever has claimed has submitted its spend with the sum of all N secrets |
| `GoodCase.LeaderHears` | swap-daemon/src/protocol/session.rs:336-367 | the leader claims exactly with the last secret, and then with the sum of all N |
| `Handling.StepMessage` | swap-daemon/src/protocol/session.rs:202-373 | one party against honest peers: any next message, in the order of its link only, neither panics nor breaks the session invariant, and only the planned messages go out |
| `PartySteps.StepPoint` | swap-daemon/src/protocol/session.rs:213-231 | the adaptor point keeps the session invariant; the last one starts the election |
| `PartySteps.StepCommitment` | swap-daemon/src/protocol/session.rs:232-248 | a commitment keeps the invariant; the last one reveals the own nonce |
| `SigningSteps.StepLeaderNonce` | swap-daemon/src/protocol/session.rs:249-258 | a leader nonce keeps the invariant; the last one elects, builds the locks and opens all 2N first rounds |
| `SigningSteps.StepSchnorr` | swap-daemon/src/protocol/session.rs:259-287 | a public nonce keeps the invariant; the last one of a role produces the one partial signature |
| `SigningSteps.InputsArePlanned` | swap-daemon/src/cryptography/multisig.rs:85-96 | what a party gathers for a role is the plan computed from everybody's values |
| `FundingSteps.StepPartial` | swap-daemon/src/protocol/session.rs:288-330 | a partial signature keeps the invariant; the last of all makes the party fund |
| `FundingSteps.PartialsAddUp` | swap-daemon/src/cryptography/multisig.rs:211-240 | the library's check passes: all N contributed, for their announced nonces, over the same inputs |
| `FundingSteps.AllSignedIsFunded` | swap-daemon/src/utils.rs:251-274 | under FIFO the funding check passes exactly when all 2N roles are finalized |
| `ClaimSteps.StepSecret` | swap-daemon/src/protocol/session.rs:336-367 | a secret keeps the invariant; the leader's last one makes it claim |
| `ClaimSteps.StepLockPoll` | swap-daemon/src/daemon.rs:366-396 | a lock poll keeps the invariant, reveals a non-leader's secret once |
| `ClaimSteps.StepLeaderSpendPoll` | swap-daemon/src/daemon.rs:397-415 | the leader-spend poll keeps the invariant and claims with what was found |
| `ClaimSteps.StepRefundPoll` | swap-daemon/src/daemon.rs:416-427 | the refund poll keeps the invariant whatever the chain answers |
| `ClaimSteps.StepStart` | swap-daemon/src/daemon.rs:82-103 | the start finds an untouched session and broadcasts its point |
| `Effects.MessageEffect` | swap-daemon/src/protocol/session.rs:202-373 | for any session and any message, honest or not: a lock is submitted exactly as often as `Funding` is recorded, and no message confirms a lock |
| `Effects.LockPollEffect` | swap-daemon/src/daemon.rs:366-396 | a poll confirms exactly the lock it found and submits none |
| `Effects.RefundGuardIsBlind` | swap-daemon/src/utils.rs:251-274 | any session whose last partial signature is for its own refund funds in any case, and holds that refund if and only if the role was in its second round |
| `Effects.RepeatFundsAgain` | swap-daemon/src/protocol/session.rs:308-329 | in any session a repeated partial signature after everything is signed submits the lock again |
| `Disorder.DisorderLosesRefund` | swap-daemon/src/utils.rs:251-274 | for every ring: a fresh session that is sent every setup message of its honest peers once, all in order but one partial signature that overtakes its public nonce, submits its lock and holds no refund |
| `Disorder.RepeatSubmitsAgain` | swap-daemon/src/protocol/session.rs:308-329 | for every ring: a fresh session that is sent every setup message once and in order submits its lock once, and a second time when the last message is repeated |
| `NonceUse.NonceSingleUse` | swap-daemon/src/cryptography/multisig.rs:77-129 | for any sequence of calls on a new session, duplicated, reordered or hostile: per role one secret nonce is announced and it signs at most once, for the message it was made for |
| `Ring.CheckCyclic` | swap-daemon/src/utils.rs:393-428 | terminates and returns true exactly for rings: at least two participants, each reaching all others along the targets |
| `Ring.OrbitDecides` | swap-daemon/src/utils.rs:409-427 | why one orbit suffices: its length at the first return, or running past N, settles whether the map is a ring |
| `Ring.RingReturnsAtN` | swap-daemon/src/utils.rs:393-428 | in a ring every orbit first returns after exactly N hops |
| `Ring.NoTargetNoRing` | swap-daemon/src/utils.rs:394-406 | a participant without a target, or with itself as target, rules out a ring |
| `Ring.SelfLoopIsNoRing` | swap-daemon/src/utils.rs:394-406 | a self-claiming participant never reaches the others |
| `Ring.DistanceFromLeader` | swap-daemon/src/utils.rs:585-604 | on any map: the least number of lookups that leads from the leader to the participant, or the panic exactly when there is none within N + 1 |
| `Ring.DistanceBijection` | swap-daemon/src/utils.rs:585-604 | distances map the ring one-to-one onto 1..N |
| `Ring.LeaderIsLast` | swap-daemon/src/utils.rs:585-604 | the leader's distance is N |
| `Ring.TargetIsNext` | swap-daemon/src/utils.rs:585-604 | a non-leader's target is exactly one hop further |
| `Ring.LeaderTargetIsFirst` | swap-daemon/src/utils.rs:585-604 | the leader's target has distance one |
| `Ring.ClaimantIsUnique` | swap-daemon/src/utils.rs:585-604 | no two participants claim from the same one |
| `Timelocks.BtcLocktimeExact` | swap-daemon/src/utils.rs:448-453 | the 32-bit locktime is the intended one if and only if the intended one fits |
| `Timelocks.BtcStagger` | swap-daemon/src/utils.rs:448-453 | a target's block height is one rounded-up window after its claimant's |
| `Timelocks.BtcLocktimesAreHeights` | swap-daemon/src/utils.rs:448-453 | all locktimes read as heights if and only if start + N*ceil(window/600) stays below 500,000,000 |
| `Timelocks.DeadlineExact` | swap-daemon/src/utils.rs:511-525 | the datum holds the intended deadline if and only if it fits in 64 bits |
| `Timelocks.CardanoValues` | swap-daemon/src/utils.rs:473-477 | slots and deadlines are the intended ones when the last deadline fits |
| `Timelocks.CardanoStagger` | swap-daemon/src/utils.rs:473-525 | slots are staggered by the window and deadlines by 1000 times the window |
| `Timelocks.TwoUnitTimelock` | swap_validator/validators/swap.ak:32-34 | for every declared start of validity, zero and none included, ledger and script together accept a refund only once its slot is reached, and from then on some refund is accepted |
| `Contents.OwnRefundAccepted` | swap-daemon/src/protocol/chain_monitor.rs:302-323 | the refund the daemon holds, as a transaction: whenever the window check says so its timelock has passed, on Cardano for ledger and script both |
| `Contents.RefundSays` | swap-daemon/src/protocol/refund.rs:77-93 | the locktime in a refund is start block + distance * blocks per window, or start slot + distance * window, when the values fit |
| `Contents.LockSays` | swap-daemon/src/utils.rs:511-525 | the deadline in a Cardano lock is (system start + start slot + distance * window) * 1000 when the values fit |
| `Contents.TimelockIs` | swap_validator/validators/swap.ak:32-37 | the chain's checks on the transaction, its locktime against the height or slot and on Cardano against the deadline in the lock, pass exactly from the computed refund height or slot on, whether the deadline fits in its word or not |
| `Timelocks.NominalOpening` | swap-daemon/src/protocol/chain_monitor.rs:302-323 | on the nominal clock the chain accepts a refund from exactly the computed second on |
| `Timelocks.BtcDrift` | swap-daemon/src/utils.rs:448-453 | a Bitcoin window at distance d opens between d*w and d*(w + 599) |
| `Timelocks.MixedChainOrder` | swap-daemon/src/utils.rs:448-477 | windows keep their order on every mix of chains if and only if (N-1) times the rounding excess is below the window |
| `Timelocks.LongWindowsAreOrdered` | swap-daemon/src/utils.rs:448-477 | (N-1)*599 < w suffices |
| `Timelocks.DefaultWindowIsExact` | swap-daemon/src/protocol/session.rs:92 | the default of 604800 seconds has no drift at all |
| `Timelocks.NominalRingOrder` | swap-daemon/src/protocol/chain_monitor.rs:302-323 | at every nominal moment an acceptable refund implies that all windows before it are open |
| `Timelocks.DaemonOpening` | swap-daemon/src/protocol/chain_monitor.rs:302-323 | the daemon calls a window open from the computed second on, on Cardano one second later |
| `Timelocks.MomentToServe` | swap-daemon/src/protocol/chain_monitor.rs:302-323 | there is a moment to be served in time if and only if the two openings are further apart than the daemon's margin |
| `Adaptor.ExtractIffAdapted` | swap-daemon/src/cryptography/multisig.rs:418-440 | for both parities: a secret is extracted from a published signature if and only if that signature is the pre-signature adapted with that secret |
| `Adaptor.RoundTripExact` | swap-daemon/src/cryptography/multisig.rs:418-440 | without assuming a finite nonce, the round trip succeeds exactly when the nonce is finite or the adapted nonce is even |
| `Adaptor.AggregateIsOrderFree` | swap-daemon/src/utils.rs:322-369 | whatever the iteration order of the hash map, a successful aggregation is the same sum |
| `Adaptor.AggregateAlwaysSucceeds` | swap-daemon/src/utils.rs:322-369 | it succeeds in every order if and only if no non-empty group of entries cancels |
| `Adaptor.LeaderAndFollowersAgree` | swap-daemon/src/protocol/secret.rs:550-572 | whoever extracts from the leader's published spend gets the sum of all secrets |
| `Adaptor.ReaggregationDoubleCounts` | swap-daemon/src/protocol/secret.rs:567-571 | aggregating again after storing the extracted sum gives it back only if all other stored secrets cancel |
| `Adaptor.OneEntryDecides` | swap-daemon/src/utils.rs:322-329 | for every sum at most one entry under a given id makes it the sum of all, the one that follows from the other entries: so the participant that sends its point last decides the sum |
| `SessionObject.SwapSession.constructor` | swap-daemon/src/protocol/session.rs:64-108 | the object starts as the initial value, with its own secret and point stored |
| `SessionObject.NonceBytes` | swap-daemon/src/protocol/leader_election.rs:158-163 | the loop concatenates the nonces in ascending order of the keys |
| `SessionObject.Elected` | swap-daemon/src/protocol/leader_election.rs:158-168 | the elected id is a member of the ring: in ascending order of the ids, the one at the index that the first eight bytes of the hash give modulo N |
| `SessionObject.SwapSession.BuildLockTxs` | swap-daemon/src/protocol/lock_funds.rs:33-90 | the loop builds the lock of every participant, each with its owner, its amount, its chain and on Cardano its refund deadline, and panics exactly when a Cardano lock has no system start |
| `Contents.LockIsRight` | swap-daemon/src/protocol/lock_funds.rs:54-90 | the lock of a participant has its amount on its chain and on Cardano its refund deadline, and no other lock is built |
| `SessionObject.SwapSession.BeginSigningRoles` | swap-daemon/src/protocol/refund.rs:44-162 | the loop creates, for each role in order, the transaction with the right lock, locktime and receiver, its message with the taproot tweak exactly for Bitcoin locks, and the first round with the nonce made from the seed drawn for that role, which is also the one announced |
| `Contents.UnsignedIsRight` | swap-daemon/src/protocol/spend.rs:81-135 | a refund returns the own lock to its owner with the locktime of its window, a spend pays the target's lock to the claimant, and nothing else is built for a role |
| `SessionObject.BeginSigningAppends` | swap-daemon/src/protocol/spend.rs:70-182 | refund rounds and then spend rounds are the rounds of all 2N roles |
| `SessionObject.SwapSession.HandleSessionMessage` | swap-daemon/src/protocol/session.rs:202-373 | the in-place handler does exactly what the step function does to the value of the session, its broadcasts and submissions included |
| `SessionObject.SwapSession.StartSwapSession` | swap-daemon/src/daemon.rs:82-103 | the start after the funding outputs have been validated |
| `SessionObject.SwapSession.PollLockTx` | swap-daemon/src/daemon.rs:366-396 | a found lock is confirmed once; with the last one a non-leader reveals its secret and the leader waits, whatever the state was |
| `SessionObject.SwapSession.PollLeaderSpend` | swap-daemon/src/daemon.rs:397-415 | only a waiting session claims, with the secret that was found |
| `SessionObject.SwapSession.PollRefundWindow` | swap-daemon/src/daemon.rs:416-427 | a live session with its window open submits its refund and is refunded or failed by the answer |
| `SessionObject.SwapSession.UnconfirmedLocks` | swap-daemon/src/daemon.rs:245-258 | the loop lists exactly the announced, unconfirmed locks |
| `DaemonObject.MessageCovers` | swap-daemon/src/daemon.rs:353-361 | if every session that has not ended has all its pollers, then so it is after a peer message for one of them; an ended one has none |
| `DaemonObject.PollCovers` | swap-daemon/src/daemon.rs:363-431 | and after a chain poll for one of them, although a poll may have dropped or cancelled pollers |
| `DaemonObject.Daemon.NeededOnce` | swap-daemon/src/daemon.rs:237-290 | for every live session of a daemon in order the table holds, with exactly one task each: its refund window once its own lock is confirmed, the spend of its leader while it waits for that, and every announced, unconfirmed lock of its ring |
| `DaemonObject.EndedKeepsLockPollers` | swap-daemon/src/daemon.rs:411-431 | a session ended by a poll keeps exactly the pollers of its announced, unconfirmed locks |
| `DaemonObject.SpawnedOk` | swap-daemon/src/daemon.rs:133-157 | spawning keeps one task per poller |
| `DaemonObject.CancelledOk` | swap-daemon/src/daemon.rs:169-179 | cancelling aborts every task of the session but the forgotten ones |
| `DaemonObject.ForgottenOk` | swap-daemon/src/daemon.rs:370-377 | a confirmed lock's task leaves the table and runs on: the only kind of task outside it |
| `DaemonObject.OpenWindowEnds` | swap-daemon/src/daemon.rs:416-427 | one poll with the window open ends a live session: refunded if and only if its refund is signed and taken, failed otherwise |
| `DaemonObject.EndAbsorbs` | swap-daemon/src/protocol/session.rs:209-211 | with all locks confirmed, an ended session ignores every message and poll |
| `DaemonObject.EndIsLeftExactly` | swap-daemon/src/daemon.rs:366-396 | an ended session is taken back to waiting if and only if the poll confirms the last lock |
| `DaemonObject.TargetsOf` | swap-daemon/src/daemon.rs:237-275 | the targets collected are exactly: the announced, unconfirmed locks, the spend of the leader while it is awaited, and the own refund window with the own lock confirmed and the session not ended |
| `DaemonObject.WantedIsNeeded` | swap-daemon/src/daemon.rs:237-290 | as a set, the targets asked for are exactly those needed |
| `DaemonObject.Daemon.constructor` | swap-daemon/src/daemon.rs:37-44 | a new daemon has no sessions, pollers or tasks, and everything is in order |
| `DaemonObject.Daemon.InsertSession` | swap-daemon/src/daemon.rs:52-54 | a session under a new id keeps the daemon in order; under one in use if and only if the table has what it needs and no task of the replaced one has been forgotten |
| `DaemonObject.Daemon.StartSession` | swap-daemon/src/daemon.rs:82-103 | the start, for both answers of the validation and for an unknown id, keeps every live session polled |
| `DaemonObject.Daemon.SpawnPoller` | swap-daemon/src/daemon.rs:133-157 | adds the key, and a task unless there was one |
| `DaemonObject.Daemon.CancelSessionPollers` | swap-daemon/src/daemon.rs:169-179 | the loop removes and aborts the session's keys and no others |
| `DaemonObject.Daemon.MaybeSpawnPollers` | swap-daemon/src/daemon.rs:237-290 | the loop adds exactly those targets and no others, panics when the session waits for the spend of no leader, and does nothing for an unknown session |
| `DaemonObject.Daemon.HandlePeerMessage` | swap-daemon/src/daemon.rs:334-362 | session, poller table and tasks after a message, every live session of the daemon polled by one task per target again; a panic for an unknown session |
| `DaemonObject.Daemon.HandleChainPoll` | swap-daemon/src/daemon.rs:363-431 | the same after a chain poll, which does nothing for an unknown session |
| `CardanoFees.BuiltBodiesBalance` | swap-daemon/src/blockchains/cardano_utils.rs:268-317 | locks balance, refunds if and only if twice the fee is covered, spends if and only if the fixed fee is |
| `CardanoFees.ReattachBalances` | swap-daemon/src/blockchains/cardano_utils.rs:1096-1101 | recomputing the output conserves the input if and only if the new fee does not exceed it |
| `CardanoFees.AttachBalances` | swap-daemon/src/blockchains/cardano_utils.rs:1180-1221 | each of the three attachments conserves the input if and only if it covers that fee; for the draft that is 616,155,381 lovelace |
| `CardanoFees.LockToRefundConserves` | swap-daemon/src/blockchains/cardano_utils.rs:718-760 | from the funding output to the submitted refund, fees and output add up to the amount if and only if the amount covers the two fees |
| `CardanoFees.LockToSpendConserves` | swap-daemon/src/protocol/spend.rs:115-137 | the same from the funding output to the submitted spend, measured with the session's fee |
| `CardanoFees.MinFeeIsLeast` | swap-daemon/src/blockchains/cardano_utils.rs:147-157 | where 64 bits suffice the computed fee is the least one the ledger accepts for that size with 105 more bytes: bytes, constant, memory and steps at their prices |
| `CardanoFees.FeeFixpoint` | swap-daemon/src/blockchains/cardano_utils.rs:1202-1221 | the submitted fee is the minimum of the submitted transaction if and only if the amounts have the total width they were measured with, and sufficient if and only if they are no wider |
| `CardanoFees.SettledWidthsAgree` | swap-daemon/src/blockchains/cardano_utils.rs:1202-1221 | a condition on frame, parameters, units, provisional fee and input alone under which the measured widths are the submitted ones |
| `CardanoFees.SettledFeeIsLeast` | swap-daemon/src/blockchains/cardano_utils.rs:1202-1221 | under that condition the submitted transaction balances and its fee is exactly the least one the ledger accepts for it |
| `CardanoFees.LockIsPaidOut` | swap-daemon/src/blockchains/cardano_utils.rs:1180-1221 | and so a lock is refunded, or claimed, with nothing lost but the lock's fee and that least fee |
| `CardanoFees.CrossingUnderpays` | swap-daemon/src/blockchains/cardano_utils.rs:1202-1221 | a concrete input outside that range whose submitted fee is too low |
| `CardanoFees.EncodingHasWidth` | swap-daemon/src/blockchains/cardano_utils.rs:147-157 | the width is the length of the shortest CBOR encoding (section 3.1 of RFC 8949), which decodes back whatever follows |
| `CardanoFees.SerialisedReadsBack` | swap-daemon/src/blockchains/cardano_utils.rs:1096-1134 | output and fee are read back from the serialised transaction |

## Left out

- HTTP, gRPC, Electrs, Blockfrost and Dolos calls, JSON and serde: chain polls take their answers as parameters.
- TCP, tokio tasks and the connection pool: a link is a log with a read position, a running task an entry in a multiset.
- The internals of secp256k1, MuSig2, SHA-256, Blake2b, Ed25519 and Taproot tweaks: hashes and sums are arbitrary functions of the environment, and a signature records what its signer put into it.
- Degenerate aggregates: in the sessions the three aggregations are total functions of a whole map; when the real folds panic is the subject of the `Adaptor` module.
- Setups in which some peers misbehave: the network theorems are about honest parties. What any calls leave behind is the subject of `Effects`, `NonceUse`, `FundedSessions` and `AnySetup`; what honest parties then agree on is the subject of `Agreement`.
- Randomness: nonces, seeds and secrets are inputs, and no probability is attached to them.
- The validation of funding outputs before the start: its answer is a parameter of the daemon's start, and the network starts sessions for which it has passed.
- The key type of the two-level maps: nonces and partial signatures are keyed by pairs, so an entry without inner entries is not distinguished from none.
- `get_my_id` and the search for `is_me`: a session knows its own id.
- The panics inside the search for the leader's spend when leader data are missing: the poll's answer is a secret or none.
- Transaction serialisation beyond amounts, fees, locktimes and which output is spent; addresses, scripts, cost models and witnesses.
- Overflow of the sums inside `compute_min_fee`: wrapped in the function, excluded by the premises of the lemmas about it. Prices are real numbers, so the rounding of 64-bit floats is not modelled.
- The spend transaction's fee as a parameter: spends are built with the fixed 2,000,000 of the caller.
- Chain reorganisations, mempool races and incentives. A second lock of the same party is counted as a submission, but only the first one is on the modelled chain.
- The dashboard, the binaries, configuration URLs, the test environment and logging.
- ChainTheorems.LeaderGetsItsClaim: the secrets adding up is a condition rather than a premise, since a misbehaving party may send the leader a wrong secret; `Stranding.WrongSecretStrands` is what happens then.
- ChainTheorems.NoLoss: an honest party is promised this only while it is neither late nor hurt (`LossWitness.LossesHappen` shows a loss in either case), and with a claim over the leader's point and locks out of the reach of others; `Limits.SafeExactly` shows that these are needed.
- FundedSessions.ToleratedExactly: a sum of secrets that cancels (utils.rs:368) and a public nonce that does not parse (multisig.rs:89) panic the source's handler; sums are total and nonces well formed here. `Adaptor.AggregateAlwaysSucceeds` says when a sum exists in every order.
- LossWitness.LossesHappen: its two worlds are those of a party that is late or hurt; the losses of a party that is neither are `Crossing.CrossedSessionLoses` and those in `Limits.SafeExactly`.
