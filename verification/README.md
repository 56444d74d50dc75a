# Mir BFT state machine: a Dafny model

This project models the deterministic replica state machine of Mir BFT (`pkg/statemachine`) and proves
safety properties of it. Everything is stated over all inputs, all interleavings or all runs.

What is proved, by component:

- **Epoch change.** The choice of a new epoch's starting checkpoint and carried-over digests
  (conditions A1, A2 and B) is modelled loop by loop, and each outcome is shown to be the one that the
  messages call for. `EpochChain` composes it with the write-ahead log and with replicas that vote across any
  number of epochs, each led by the node whose turn it is. A digest
  is *locked* at a sequence number by a condition on the P and Q entries of correct replicas, which, with f
  faulty nodes, holds exactly if conditions A and B admit nothing else there in the next epoch. A locked
  digest is carried by every later verified configuration that covers the number, as long as no window in
  between ended below it. What a quorum prepared is locked, so under these conditions two quorums never
  prepare different digests. The choice does not depend on map order, and a correct leader's NewEpoch
  message is never rejected.
- **Reliable broadcast of the new epoch.** All ready messages and all deliveries of correct replicas carry
  one configuration, in every state of every run; the state loop with its recursion through verification
  terminates. All that a target does over its life is one of a few lists of actions. A replica that does
  what its target says goes through states of the epoch chain, in every run of the targets of an epoch
  (`TargetRuns`). A replica echoes what it verified, except in the case given exactly below.
- **Three-phase commit.** In every run, two correct replicas that are prepared for a sequence number in an
  epoch hold the same digest, also with an equivocating owner. The prepare tally counts distinct nodes
  except for the owner's own second count. The commit tally is exact too: distinct committers, plus one
  for an owner whose commit came both before and after the batch was hashed. What an operation logs, sends
  and gives to the hasher follows from the phases that it goes through.
- **Commits across epochs.** `JointRuns` joins the chain of epochs and the three phases into one machine, in
  which a sequence's log entries are its replica's votes, its owner is the one that the bucket assignment
  gives it and a checkpoint is requested once everything up to it is committed. `CommitSafety` says when
  commits agree, whether made by the three phases or on delivery of a new epoch. Commits in different
  epochs agree if the first digest is locked, no window in between ended below the number and every echo
  in between was verified. Commits in one epoch agree if its leader is correct, if both were made by
  phases, or if both replicas echoed the same.
- **Write-ahead log.** The two-pass epoch-change construction equals its declarative meaning; truncation
  preserves what later epoch changes report; every append that the replica makes keeps the log well-formed.
  No Preprepare, Prepare, Commit or NewEpochEcho leaves the processor before the entries it depends on are
  written and synced, and every message of a list leaves after that.
- **Commit log and client windows.** The two-half ring refines a plain append-only log. The client
  snapshots are exact, and a restarted client takes the same snapshots as one that went on.
- **Active window.** The blocks tile a contiguous range and none of the assertions on allocation, order
  and watermarks fails.
- **Request order.** A bucket accepts exactly the initial segments of each client's open requests. What a
  leader proposes is always such a segment, in every epoch of a run, across checkpoints, garbage collection
  and iterator resets, and no queued request is left behind once it is valid. Correct replicas never hold
  two different non-null strong digests for one request number.

## How the model is built

Objects that the source updates in place are classes whose methods are proved equal to functions on values
(`View()`), and the theorems are about those functions. Networks are maps from the correct nodes to their
states; up to f faulty nodes may send anything. A run is a sequence of states with one step between
neighbours.

Hashing is a free constructor: a batch digest is the sequence of its request digests, the digest of an
epoch change is the change itself, and an absent digest is a value of its own. Configurations are compared
as values. Sequence numbers are unbounded, except where the source relies on a wrap-around: the mask length
for contiguous commits.

Where the source does less than its documentation or its assertions say, the model follows the source and
states the exact condition. The runs below are runs of the same machines that the theorems are about, from
the initial log on: joint runs of four nodes, of which node 3 is faulty, except for the double count, which
is a run of one sequence. Epoch e is led by node e mod 4. A correct leader sends one NewEpoch message, with
all nodes or itself as leaders; the faulty one may send several.

- A new epoch's window may end below a number that a quorum has prepared, and the epoch may then commit
  another digest there (`EarlyWindow.WindowMayEndEarly`, a run). The reason is that a replica's window
  reaches two intervals beyond its latest checkpoint, but it reports its oldest one.
  `EpochChain.CarriedForward` and `EpochChain.Agreement` need `NoneEndsBelow`, and
  `Continuations.EarlyEndReassigns` is the converse for every state in which a quorum works in such an
  epoch. `EpochChain.LowWatermarksSuffice` gives a condition on the reported low watermarks.
- A replica that becomes ready on f+1 ready messages writes no P entries, so a digest committed on delivery
  may be lost in a later epoch, even if the epoch's leader was correct
  (`LostDelivery.DeliveredDigestMayBeLost`, a run). It is kept if it is locked
  (`EpochChain.LockedCarries`), and `EpochChain.LockedIff` says that otherwise genuine epoch changes for the
  next epoch admit something else. It is locked if a quorum readied the epoch on echoes
  (`EpochChain.DeliveredLocked`), but this is not the exact condition: votes of earlier epochs count too.
- On delivery a replica commits what it logged itself when it echoed (`ReplicaVotes.DeliveryCommitsEchoed`),
  without checking that this is what was delivered. With an equivocating leader two correct replicas may
  therefore commit different digests (`SplitDelivery.DeliveryMaySplit`, a run). A correct leader excludes it
  (`EpochChain.CorrectLeaderDeliveriesAgree`), and so would the check
  (`EpochChain.GuardedDeliveriesAgree`).
- While a replica waits with a verified configuration for its batches, a NewEpoch message replaces it, and
  the replacement is echoed unverified. A replica may then commit against a quorum
  (`ReplacedEcho.VerifiedMayBeReplaced`, a run). A target echoes what it verified exactly if the last
  NewEpoch message that arrived while it was fetching, if any, had the verified configuration
  (`NewEpochBroadcast.EchoedIsVerifiedIff`). The theorems across epochs need `Verified`, which a step keeps
  exactly if it is not such an echo (`EpochChain.NextVerifiedIff`) and which holds in every epoch with a
  correct leader (`EpochChain.CorrectlyLed`).
- A null digest at the end of an interval leaves out the N entry of the next one
  (`ReplicaVotes.EchoCovers`, an if-and-only-if).
- A repeated checkpoint in one message counts as support twice, because the check for duplicates reads a
  map that is never filled (`EpochChanges.RepeatedCheckpointAccepted`,
  `NewEpochConfigs.RepeatedMentionFakesSupport`).
- The owner's commit may be counted twice, so that a replica commits without a quorum
  (`DoubleCount.OwnerCommitCountedTwice`, a run); `ThreePhase.CommittedBacked` says exactly when.
- The last byte of a committed mask is zero exactly when the commits are contiguous
  (`ClientWindows.MaskEndsInZero`), although `protos/msgs/msgs.proto:97-100` says it never is.
- The client slots cover the window after a checkpoint exactly when at most half of them were consumed
  (`ClientWindows.CoverageKept`), and a restarted client agrees with a live one exactly under the condition
  of `ClientWindows.SnapshotsAgreeIff`.
- A proposal bucket starts from the last commit instead of a checkpoint. An epoch may start with a commit
  above the checkpoint (`StrandedCommit.CommitMayBeStranded`, a run, by an owner counted twice), but not if
  every earlier commit is locked, no window ended below it and every echo was verified
  (`CommitSafety.StartsAtLastCommit`).
  `LeaderEpochs.StartAssertionIff` says when the assertion on queued requests then passes.
- Acknowledging a request again fails exactly when several requests and no null request are persisted
  (`RequestAcks.ResendFailsIff`), which every correct replica can reach (`RequestAcks.ResendMayFail`).

## Model

| member | source | states |
|---|---|---|
| `Quorums.QuorumsIntersect` | pkg/statemachine/stateless.go:102-108 | any two sets of `intersectionQuorum` configured nodes share at least f+1 nodes |
| `Quorums.SharedCorrect` | pkg/statemachine/stateless.go:102-113 | any two such sets share a correct node |
| `Quorums.IntersectionQuorumIsLeast` | pkg/statemachine/stateless.go:102-108 | every smaller size has two sets that share at most f nodes, so the size is the least one |
| `EpochChanges.ParsePSet` | pkg/statemachine/epoch_change.go:85-92 | the P set is accepted iff no sequence number repeats, and then indexed by it |
| `EpochChanges.ParseQSet` | pkg/statemachine/epoch_change.go:94-107 | the Q set is accepted iff no sequence number repeats within an epoch |
| `EpochChanges.ParseEpochChange` | pkg/statemachine/epoch_change.go:63-116 | a message is accepted iff it has a checkpoint and neither set repeats a slot |
| `EpochChanges.ParsedContent` | pkg/statemachine/epoch_change.go:63-116 | the parsed maps hold exactly the message's entries and the low watermark is its least checkpoint |
| `EpochChanges.RepeatedCheckpointAccepted` | pkg/statemachine/epoch_change.go:69-79 | a message that names a checkpoint twice is accepted all the same |
| `NewEpochConfigs.CollectCheckpoints` | pkg/statemachine/stateless.go:129-153 | the table lists for every checkpoint the nodes that name it, in configuration order, and the epoch number is found |
| `NewEpochConfigs.ScanCheckpoints` | pkg/statemachine/stateless.go:155-190 | the walk over the table in any given order ends in the clash or best checkpoint that the order determines; `NewEpochConfigs.AnswersInOrder` says which |
| `NewEpochConfigs.CountA1` | pkg/statemachine/stateless.go:231-258 | counts exactly the changes below `s` whose P entry is older or the same |
| `NewEpochConfigs.CountA2` | pkg/statemachine/stateless.go:260-285 | counts exactly the changes that preprepared the digest in the entry's epoch or later |
| `NewEpochConfigs.CountB` | pkg/statemachine/stateless.go:297-313 | counts exactly the changes below `s` with no P entry for it |
| `NewEpochConfigs.FinalPreprepares` | pkg/statemachine/stateless.go:206-320 | the digests of the window: carried, null, or not yet decidable, and empty if nothing is carried |
| `NewEpochConfigs.ConstructNewEpochConfig` | pkg/statemachine/stateless.go:123-321 | a checkpoint is certified if it is named more than f times and a quorum of changes has its low watermark at or below it. A chosen configuration starts at the greatest certified one, has the given leaders, the changes' number, the expiration and at every place the digest that conditions A and B call for; waiting means that none is certified or a place of the greatest one's window is undecided; a panic means two values for a number. If the greatest is unique, no number has two values and the window is decided, it is chosen |
| `NewEpochConfigs.AnswersInOrder` | pkg/statemachine/stateless.go:123-321 | the same of the outcome in every walk order |
| `NewEpochConfigs.NodesCount` | pkg/statemachine/stateless.go:129-159 | distinct configured nodes that name a checkpoint all count towards its f+1 |
| `NewEpochConfigs.ScanFindsGreatest` | pkg/statemachine/stateless.go:155-190 | without a clash the walk finds the eligible checkpoint of the greatest number |
| `NewEpochConfigs.OrderIrrelevant` | pkg/statemachine/stateless.go:155-190 | if no number has two eligible values, every walk order gives the same outcome and none panics |
| `NewEpochConfigs.ConflictPanics` | pkg/statemachine/stateless.go:180-187 | conversely, two eligible values for one number give an order that panics |
| `NewEpochConfigs.PanicUnreachable` | pkg/statemachine/stateless.go:129-190 | with at most f faulty nodes and correct nodes that agree on values, no number has two eligible values |
| `NewEpochConfigs.RepeatedMentionFakesSupport` | pkg/statemachine/stateless.go:129-153 | one message that names a checkpoint twice makes up the support of two nodes |
| `NewEpochConfigs.PreparedCarriedOver` | pkg/statemachine/stateless.go:206-320 | if a quorum reports `d` prepared at `s` and correct nodes preprepared only `d` later, a chosen configuration carries `d` at `s` iff it covers `s` |
| `NewEpochConfigs.AdmittedCarried` | pkg/statemachine/stateless.go:206-320 | if conditions A and B admit nothing but `d` at `s`, every chosen configuration that covers `s` carries `d` there, in a list for the whole window |
| `NewEpochConfigs.WindowReaches` | pkg/statemachine/stateless.go:155-206 | the chosen window reaches `s` if a quorum's correct members report low watermarks within a window of it |
| `WriteAheadLog.ConstructEpochChange` | pkg/statemachine/persisted.go:238-311 | the two passes with skip counts equal the declarative report: the last P entry per sequence before the cut, every Q entry, each with the epoch of the nearest preceding N or F entry |
| `WriteAheadLog.ReportContent` | pkg/statemachine/persisted.go:238-311 | an entry is reported iff some log position before the cut reports it |
| `WriteAheadLog.OwnEpochChangeParses` | pkg/statemachine/persisted.go:238-311 | the constructed message is accepted by the parser iff the log read has a checkpoint and repeats no Q entry in an epoch |
| `WriteAheadLog.TruncationPreservesReport` | pkg/statemachine/persisted.go:152-178 | after truncation at `r` the same P and Q entries above `r`, with the same epochs, and the same checkpoints from `r` on are reported |
| `WriteAheadLog.TruncateKeepsWellFormed` | pkg/statemachine/persisted.go:152-178 | truncation keeps the log well-formed from the new checkpoint on |
| `WriteAheadLog.AppendKeepsWellFormed` | pkg/statemachine/persisted.go:69-150 | every append that the state machine may make keeps the log well-formed |
| `WriteAheadLog.Persisted.AppendInitialLoad` | pkg/statemachine/persisted.go:48-67 | loading demands consecutive indexes and builds the log in order |
| `WriteAheadLog.Persisted.AppendLogEntry` | pkg/statemachine/persisted.go:69-78 | an append adds the entry at the end and returns its index |
| `WriteAheadLog.Persisted.Truncate` | pkg/statemachine/persisted.go:152-183 | truncation moves the head to the first entry that must stay, and says so only if it moved |
| `ReplicaVotes.EpochChangeFaithful` | pkg/statemachine/epoch_tracker.go:236-262 | a replica's epoch change can be constructed and reports everything it prepared above its low watermark, superseded at most by a later epoch, and only what it preprepared |
| `ReplicaVotes.EpochChangeComplete` | pkg/statemachine/persisted.go:238-311 | it also reports every Q entry above its low watermark, with its epoch |
| `ReplicaVotes.StepKeepsOffers` | pkg/statemachine/epoch_target.go:509-535 | in every step a replica keeps to one NewEpoch message per epoch that it leads |
| `ReplicaVotes.BeginKeepsInv` | pkg/statemachine/epoch_tracker.go:228-262 | beginning an epoch change, which waits for a pending checkpoint, keeps log, votes and reports consistent |
| `ReplicaVotes.EchoKeepsInv` | pkg/statemachine/epoch_target.go:311-356 | echoing a configuration logs its N and Q entries and keeps them consistent |
| `ReplicaVotes.EchoCovers` | pkg/statemachine/epoch_target.go:311-343 | after echoing, the log is covered iff the second interval was opened, by the digest at the boundary or before |
| `ReplicaVotes.EchoLogExact` | pkg/statemachine/epoch_target.go:311-343 | echoing logs exactly the N entry of the epoch, a Q entry with its requests for every digest, and an N entry after every digest that ends an interval below the stop point and is not null |
| `ReplicaVotes.ReadyKeepsInv` | pkg/statemachine/epoch_target.go:562-590 | sending ready on a quorum of echoes logs the P entries and keeps them consistent |
| `ReplicaVotes.ReadyLogExact` | pkg/statemachine/epoch_target.go:571-577 | and that appends exactly one P entry per digest, in order |
| `ReplicaVotes.OpenKeepsInv` | pkg/statemachine/epoch_active.go:376-390 | opening an interval in an epoch keeps the log consistent |
| `ReplicaVotes.PreprepareKeepsInv` | pkg/statemachine/sequence.go:202-254 | logging a Q entry for a sequence of the window keeps them consistent |
| `ReplicaVotes.PrepareKeepsInv` | pkg/statemachine/sequence.go:298-316 | logging a P entry keeps them consistent |
| `ReplicaVotes.CheckpointKeepsInv` | pkg/statemachine/commitstate.go:111-150 | logging the checkpoint that was requested keeps them consistent; that none comes while echoing follows from beginning an epoch change only without one pending, and in joint runs it is requested only after the commits of its interval |
| `ReplicaVotes.TruncateKeepsInv` | pkg/statemachine/persisted.go:152-178 | truncating at a checkpoint keeps them consistent |
| `ReplicaVotes.InitialInv` | mirbft.go:82-105 | the initial log is consistent |
| `ReplicaVotes.CommitLogged` | pkg/statemachine/epoch_target.go:641-673 | the walk over the log commits exactly the Q entries that follow the epoch's EC entry, above the last checkpoint |
| `ReplicaVotes.DeliveryCommitsEchoed` | pkg/statemachine/epoch_target.go:641-673 | what a replica commits on delivery is, above its last checkpoint, exactly what it echoed itself, whichever configuration was delivered |
| `ReplicaVotes.StepKeepsInv` | pkg/statemachine/epoch_target.go:311-690 | every step of a replica keeps the log well-formed, the votes, the epoch changes sent and the entries that delivery will commit consistent |
| `EpochChain.NextKeepsInv` | pkg/statemachine/epoch_target.go:311-690 | every step of a correct replica keeps the invariant of the network: echoes come from the leader of their epoch, prepared digests were preprepared by a correct node, readies are backed by a quorum of echoes and deliveries by readies; an echo is of a verified configuration or of one that replaced it |
| `EpochChain.CorrectlyLed` | pkg/statemachine/epoch_tracker.go:354-359 | in an epoch with a correct leader all correct replicas echo one configuration, and it was verified |
| `EpochChain.NextVerifiedIff` | pkg/statemachine/epoch_target.go:201-357 | a step keeps all echoes of some epochs verified iff it is not the echo of an unverified configuration there, and such an echo needs a faulty leader and a replica that waits with a verified one |
| `EpochChain.LockedAdmits` | pkg/statemachine/stateless.go:206-320 | from any genuine epoch changes of any later epoch, conditions A and B admit nothing but a locked digest, as long as correct replicas voted for nothing else since |
| `EpochChain.LockedCarries` | pkg/statemachine/stateless.go:206-320 | a locked digest is carried by every later configuration that covers its number, across any number of epochs, as long as none in between ended below and all were verified |
| `EpochChain.LockedIff` | pkg/statemachine/stateless.go:206-320 | with f faulty nodes and all correct ones reporting, a digest is locked iff every set of genuine epoch changes for the next epoch admits nothing else at its number |
| `EpochChain.PreparedLocked` | pkg/statemachine/stateless.go:206-320 | what a quorum prepared is locked |
| `EpochChain.CarriedForward` | pkg/statemachine/stateless.go:206-320 | across any chain of epochs, what a quorum prepared at `s` is carried by every later configuration that covers `s`, as long as none in between ended below `s` and all were verified |
| `EpochChain.Agreement` | pkg/statemachine/stateless.go:206-320 | two quorums that prepared a digest at `s`, in any two epochs, prepared the same one, as long as no window in between ended below `s` and all echoes in between were verified |
| `EpochChain.RunAgreement` | pkg/statemachine/stateless.go:123-321 | the same in every state of every run from the initial log, where a replica echoes only configurations that leave its intervals opened (see `ReplicaVotes.EchoCovers`) |
| `EpochChain.LowWatermarksSuffice` | pkg/statemachine/stateless.go:155-206 | for verified echoes the condition on the windows follows from the low watermarks that a quorum reports |
| `EpochChain.AcceptedShape` | pkg/statemachine/stateless.go:206-320 | an accepted configuration starts on an interval boundary and describes a whole window or nothing |
| `EpochChain.OneReadied` | pkg/statemachine/epoch_target.go:562-639 | over any number of epochs correct replicas send ready for one configuration per epoch |
| `EpochChain.OneDelivered` | pkg/statemachine/epoch_target.go:641-673 | and have one configuration per epoch delivered |
| `EpochChain.AnchoredIsPrepared` | pkg/statemachine/epoch_target.go:562-590 | a quorum that readied a configuration on echoes prepared its digests, and conversely when no correct replica echoed another configuration |
| `EpochChain.DeliveredLocked` | pkg/statemachine/epoch_target.go:562-673 | what a replica committed on delivery is locked if a quorum readied the configuration on echoes |
| `EpochChain.DeliveredKept` | pkg/statemachine/epoch_target.go:641-673 | what a replica committed on delivery is carried by every later configuration that covers it, if a quorum readied the configuration on echoes, no window in between ended below and all echoes were verified |
| `EpochChain.CorrectLeaderDeliveriesAgree` | pkg/statemachine/epoch_target.go:641-673 | all that correct replicas commit on delivering an epoch with a correct leader agrees at every number |
| `EpochChain.GuardedDeliveriesAgree` | pkg/statemachine/epoch_target.go:641-673 | replicas that delivered what they echoed agree; any other replica agrees with them at `s` iff its own echo has the digest of the delivered configuration there |
| `LostDelivery.DeliveredDigestMayBeLost` | pkg/statemachine/epoch_target.go:592-673 | a joint run in which a replica commits any `d` at 1 on delivering epoch 2, led by a correct node, and two others commit any `d1` there by phases in epoch 3; all windows cover 1, all echoes were verified and equal in epoch 2, and `d` is not locked |
| `SplitDelivery.DeliveryMaySplit` | pkg/statemachine/epoch_target.go:641-673 | a joint run in which the faulty leader of epoch 3 sends two verified configurations; two correct replicas deliver the same one, echoed different ones and commit different digests |
| `ReplacedEcho.VerifiedMayBeReplaced` | pkg/statemachine/epoch_target.go:537-540 | a joint run in which a quorum prepared and two replicas committed `d` at 1 in epoch 1, and a third replica, whose verified configuration of epoch 3 the faulty leader replaced, commits the null digest there on delivery |
| `EarlyWindow.WindowMayEndEarly` | pkg/statemachine/stateless.go:155-206 | a joint run in which the window of epoch 2 ends below 3; a quorum prepares any `d` at 3 in epoch 1 and two replicas commit any `d1` there in epoch 2 |
| `Continuations.EarlyEndReassigns` | pkg/statemachine/stateless.go:155-206 | in general, from every state in which a quorum prepared `d` at `s` and a quorum works in a later epoch whose window ended below `s`, has `s` in its window and has not touched it, the joint machine can go on so that the latter commits any batch at `s` by the three phases |
| `EpochAcceptance.AcceptedIsJustified` | pkg/statemachine/epoch_target.go:162-199 | a configuration that passes verification rests on epoch changes that correct nodes really sent, because f+1 acknowledgements include a correct one; this is what the chain asks of an echo |
| `NewEpochBroadcast.EpochTarget.AdvanceState` | pkg/statemachine/epoch_target.go:692-746 | the loop, with its recursion through verification, terminates where the target waits: for the changes, the leader, verification, the batches, a quorum of echoes or of readies, or the last checkpoint |
| `NewEpochBroadcast.EpochTarget.VerifyNewEpochState` | pkg/statemachine/epoch_target.go:162-199 | successful verification advances further by itself |
| `NewEpochBroadcast.EpochTarget.ApplyNewEpochEchoMsg` | pkg/statemachine/epoch_target.go:542-590 | an echo is recorded under its configuration and the target advances |
| `NewEpochBroadcast.EpochTarget.ApplyNewEpochReadyMsg` | pkg/statemachine/epoch_target.go:592-639 | a ready is recorded, f+1 of them make an echoing node ready without P entries, later ones are ignored |
| `NewEpochBroadcast.EpochTarget.ApplyNewEpochMsg` | pkg/statemachine/epoch_target.go:537-540 | the leader's message is stored and the target advances |
| `NewEpochBroadcast.HistoryDone` | pkg/statemachine/epoch_target.go:311-673 | over every history, all that a target has done is: logged and echoed one configuration; then, on a quorum of echoes, logged P entries and directly after sent ready for it, or, on f+1 readies, sent ready without; then committed once what it echoed, on a quorum of readies |
| `NewEpochBroadcast.EchoedIsVerifiedIff` | pkg/statemachine/epoch_target.go:162-357 | over every history of a target, it echoes what it verified iff the last NewEpoch message that arrived while it was fetching, if any did, had the verified configuration |
| `NewEpochBroadcast.OneOfferEchoed` | pkg/statemachine/epoch_target.go:509-540 | from a leader that sends one configuration a target echoes what it verified |
| `NewEpochBroadcast.ReplacedIsEchoed` | pkg/statemachine/epoch_target.go:537-540 | in any state of fetching another NewEpoch message is stored and echoed without verification once its batches are there |
| `NewEpochBroadcast.RunKeepsInv` | pkg/statemachine/epoch_target.go:542-673 | in every run each ready message of a correct node rests on a quorum of echoes |
| `NewEpochBroadcast.ReadiesAgree` | pkg/statemachine/epoch_target.go:562-639 | all ready messages of correct nodes in an epoch carry one configuration |
| `NewEpochBroadcast.DeliveriesAgree` | pkg/statemachine/epoch_target.go:641-673 | any two correct nodes with a delivered configuration have the same one |
| `NewEpochBroadcast.QuorumsUnique` | pkg/statemachine/epoch_target.go:562-673 | at most one configuration has a quorum in either tally, so the loops' map order does not matter |
| `TargetRuns.EchoIsStep` | pkg/statemachine/epoch_target.go:311-356 | a target's pass that echoes is the echo step of its replica: the same log, votes and echo |
| `TargetRuns.ReadyIsStep` | pkg/statemachine/epoch_target.go:562-590 | its pass on a quorum of echoes is the ready step with P entries |
| `TargetRuns.JoinIsStep` | pkg/statemachine/epoch_target.go:622-635 | its ready on f+1 readies is the ready step without |
| `TargetRuns.DeliverIsStep` | pkg/statemachine/epoch_target.go:641-673 | its pass on a quorum of readies is the deliver step |
| `TargetRuns.EventRefines` | pkg/statemachine/epoch_target.go:537-746 | whatever an event makes a target do is a path of the epoch chain, allowed by what the other replicas have said |
| `TargetRuns.RunRefines` | pkg/statemachine/epoch_target.go:537-746 | in every run of the targets of an epoch, with all else that replicas do, the replicas go through states of the chain and stay at the point where their targets are |
| `TargetRuns.RunContinues` | pkg/statemachine/epoch_target.go:537-746 | so every run of the chain that leads to the beginning of the epoch continues to each of these states, and what is proved of chain runs holds there |
| `NewEpochVerification.ChangeTracker.AddMsg` | pkg/statemachine/epoch_change.go:29-53 | an acknowledgement is recorded under its parseable message; the first message with a quorum is the strong one |
| `NewEpochVerification.ChangeTracker.ApplyEpochChangeDigest` | pkg/statemachine/epoch_target.go:482-507 | the originator's change becomes strong with its certificate, once |
| `NewEpochVerification.SeenExact` | pkg/statemachine/epoch_change.go:29-53 | after any acknowledgements the table holds exactly the parseable messages with exactly their distinct ackers |
| `NewEpochVerification.StrongIff` | pkg/statemachine/epoch_target.go:482-507 | an originator is strong iff a quorum of distinct nodes acknowledged one of its parseable messages |
| `NewEpochVerification.ChangeTracker.ConstructNewEpoch` | pkg/statemachine/epoch_target.go:124-160 | the leader's message has the configuration that the strong changes call for and refers to every configured strong node's change; with a quorum of strong changes that decide on a configuration there is a message |
| `NewEpochVerification.ReferencesExact` | pkg/statemachine/epoch_target.go:141-152 | one reference for every configured node with a strong change, to that change |
| `NewEpochVerification.ChangeTracker.VerifyNewEpochState` | pkg/statemachine/epoch_target.go:162-199 | an accepted message references no node twice, more than f nodes vouch for each change, and its configuration is the one that these changes call for |
| `NewEpochVerification.ResolvedIff` | pkg/statemachine/epoch_target.go:164-187 | the references resolve iff no node is repeated and every change is vouched for, and then to the changes named |
| `NewEpochVerification.LeaderAccepted` | pkg/statemachine/epoch_target.go:124-199 | a leader's message is accepted by every follower that holds what it references, whatever order either walks its table in |
| `NewEpochVerification.CorrectLeaderAccepted` | pkg/statemachine/epoch_target.go:124-199 | it is accepted as soon as the follower has the acknowledgements of correct nodes that the leader used |
| `NewEpochVerification.EnoughSources` | pkg/statemachine/epoch_target.go:229-244 | every carried batch of a chosen configuration has f+1 sources, so the panic for too few is unreachable |
| `Sequences.Sequence.AdvanceState` | pkg/statemachine/sequence.go:103-126 | the loop ends at the fixpoint with all actions of the passes in order |
| `Sequences.Sequence.AllocateBatch` | pkg/statemachine/sequence.go:142-177 | a batch is allocated once; an empty one is ready and hashed at once, another is given to the hasher first |
| `Sequences.Sequence.ApplyBatchHashResult` | pkg/statemachine/sequence.go:196-200 | the hash result sets the digest and counts as the owner's prepare |
| `Sequences.Sequence.ApplyPrepareMsg` | pkg/statemachine/sequence.go:256-273 | one prepare per node is tallied, the owner's every time |
| `Sequences.Sequence.CheckPrepareQuorum` | pkg/statemachine/sequence.go:275-317 | prepared needs a quorum of prepares and the replica's own matching choice |
| `Sequences.Sequence.ApplyCommitMsg` | pkg/statemachine/sequence.go:319-336 | one commit per recorded choice is tallied |
| `Sequences.Sequence.CheckCommitQuorum` | pkg/statemachine/sequence.go:338-354 | committed needs a quorum of commits and the replica's own |
| `Sequences.Sequence.SatisfyOutstanding` | pkg/statemachine/sequence.go:179-194 | the batch becomes ready with its last outstanding request |
| `Sequences.OperationsSaturate` | pkg/statemachine/sequence.go:103-354 | every operation ends at a fixpoint and never moves the phase back |
| `Sequences.OperationsAct` | pkg/statemachine/sequence.go:103-354 | the actions of every operation are exactly those of the phases it goes through: Q entry and preprepare or prepare, P entry and commit |
| `Sequences.OperationsHash` | pkg/statemachine/sequence.go:153-176 | allocating a non-empty batch asks for its hash, once and first; no other operation asks for one |
| `Sequences.OperationsHaveRequests` | pkg/statemachine/sequence.go:179-194 | no sequence with a batch gets ready while it waits for a request |
| `Sequences.DroppedActionsEmpty` | pkg/statemachine/sequence.go:319-336 | the actions of a commit message are non-empty iff it is the replica's own, before its prepare, with everything else to prepare there |
| `Sequences.OperationsPersistFirst` | pkg/statemachine/sequence.go:202-317 | in the actions of every operation each message comes after the log entry it depends on |
| `ThreePhase.HandleKeepsInv` | pkg/statemachine/sequence.go:103-354 | every event keeps the prepare tally equal to the number of distinct voters, plus one at the owner after its own preprepare |
| `ThreePhase.HandleKeepsCommitInv` | pkg/statemachine/sequence.go:319-336 | the commit tally is exactly the number of distinct committers, plus one if the owner's commits before and after the hash result were both for the digest |
| `ThreePhase.PreparedVoters` | pkg/statemachine/sequence.go:275-317 | a prepared replica other than the owner counted a quorum of distinct nodes, the owner at least one less |
| `ThreePhase.PreparedAgree` | pkg/statemachine/sequence.go:103-354 | prepared correct replicas hold the same digest, with an equivocating owner too, and a correct owner's batch |
| `ThreePhase.RunAgreement` | pkg/statemachine/sequence.go:103-354 | the same in every state of every run, however messages are reordered or repeated |
| `ThreePhase.CommittedBacked` | pkg/statemachine/sequence.go:319-354 | in every run the correct nodes that a committed replica counted have prepared its digest; they meet every quorum iff more than n-q of them are correct, and the counted nodes are a quorum iff the owner's second commit did not fill the tally |
| `ThreePhase.CommittersCount` | pkg/statemachine/sequence.go:319-354 | a committed replica counted a quorum of distinct committers iff the owner's second commit did not fill the tally, and one less at least |
| `ThreePhase.InEveryQuorumIff` | pkg/statemachine/stateless.go:102-108 | a set of nodes has a correct member in every quorum iff more than n-q of it are correct; a quorum always has |
| `DoubleCount.OwnerCommitCountedTwice` | pkg/statemachine/sequence.go:256-354 | a run of four nodes in which a correct replica commits any batch on the commits of itself and a faulty owner counted twice, while no other correct replica is even prepared |
| `ThreePhase.NothingDropped` | pkg/statemachine/epoch_active.go:296-302 | over every run the actions that are dropped when a commit message is applied are empty |
| `ThreePhase.OutcomeLogs` | pkg/statemachine/sequence.go:202-316 | an event logs a Q entry iff it makes the sequence preprepared and a P entry iff it makes it prepared, in this order |
| `ThreePhase.OutcomeAsks` | pkg/statemachine/sequence.go:153-176 | over events: what the hasher works on is the batch that an allocation asked for, so a hash result follows a request |
| `SlotRuns.QuorumPrepares` | pkg/statemachine/sequence.go:103-317 | from a fresh sequence a quorum with the owner, or under a faulty owner, can preprepare any batch and any of its members prepare it |
| `SlotRuns.QuorumCommits` | pkg/statemachine/sequence.go:103-354 | and it can commit it |
| `JointRuns.QIsPropose` | pkg/statemachine/sequence.go:202-254 | a pass that makes a sequence preprepared is the replica's vote step of the epoch chain |
| `JointRuns.PIsCommit` | pkg/statemachine/sequence.go:275-317 | a pass that makes it prepared is the replica's prepare step |
| `JointRuns.JointNextKeepsInv` | pkg/statemachine/epoch_active.go:215-317 | every step of the joint machine keeps both invariants, the link between a sequence's phase and its replica's log, and its owner by the bucket assignment |
| `JointRuns.RunKeepsJointInv` | pkg/statemachine/epoch_active.go:215-317 | the same in every state of every joint run |
| `JointRuns.OneOwner` | pkg/statemachine/epoch_active.go:53-70 | every correct replica that an epoch was delivered to computes the same owner for a sequence |
| `JointPaths.LiftSlot` | pkg/statemachine/epoch_active.go:215-317 | whatever replicas can bring about at a fresh sequence that they take part in, the joint machine can do, with their log entries |
| `CommitSafety.LogsPrepared` | pkg/statemachine/sequence.go:298-316 | in every joint run a prepared sequence has its P entry among what its replica logged |
| `CommitSafety.PhasesAnchored` | pkg/statemachine/sequence.go:319-354 | a commit by the three phases means that a quorum prepared the digest, unless the owner's second commit filled the tally |
| `CommitSafety.DeliveryAnchored` | pkg/statemachine/epoch_target.go:562-673 | a commit on delivery means that a quorum prepared the digest if a quorum readied the epoch on echoes, and only then if all correct replicas echoed the same |
| `CommitSafety.AnchoredLocked` | pkg/statemachine/stateless.go:206-320 | a digest that a quorum prepared is locked |
| `CommitSafety.LaterCommitAgrees` | pkg/statemachine/epoch_target.go:641-673 | once a digest is locked, later commits at the number are of that digest and only on delivery, under the window condition and with verified echoes |
| `CommitSafety.CorrectLeaderSameEcho` | pkg/statemachine/epoch_tracker.go:354-359 | two correct replicas echo the same in an epoch with a correct leader |
| `CommitSafety.PhasesAgree` | pkg/statemachine/epoch_active.go:296-317 | two commits by phases in one epoch are of the same digest |
| `CommitSafety.SameEpochAgrees` | pkg/statemachine/epoch_active.go:296-317 | within an epoch, commits of replicas that echoed the same configuration agree, and either all are by phases or all on delivery |
| `CommitSafety.CommitsAgree` | pkg/statemachine/epoch_active.go:296-317 | two correct replicas that committed at a sequence number in a joint run, each by phases or on delivery, committed the same: in different epochs if the first digest is locked, no window in between ended below and all echoes in between were verified; in one epoch if its leader is correct, both committed by phases or both echoed the same; replicas echo only configurations that leave their intervals opened |
| `CommitSafety.PhaseCommitsAgree` | pkg/statemachine/epoch_active.go:296-317 | two commits by phases at a number agree and are in the same epoch, under the window condition, with verified echoes and unless the first tally was filled by the owner's second commit |
| `CommitSafety.StartsAtLastCommit` | pkg/statemachine/epoch_target.go:675-690 | an epoch starts with nothing committed above its starting checkpoint, if each earlier commit is locked, no window ended below it and all echoes were verified |
| `StrandedCommit.CommitMayBeStranded` | pkg/statemachine/epoch_active.go:45-86 | a joint run in which an epoch starts at a replica that has a commit above the last checkpoint, made in an epoch whose bucket the faulty leader owns and counted twice |
| `CommitRing.CommitState.CommitEntry` | pkg/statemachine/commitstate.go:152-183 | a commit appends the next entry to the log, or repeats one with the same digest, or is below the low watermark |
| `CommitRing.CommitState.Drain` | pkg/statemachine/commitstate.go:225-266 | draining emits what the plain log has next, and everything so far is the plain log's trace |
| `CommitRing.CommitState.ApplyCheckpointResult` | pkg/statemachine/commitstate.go:111-150 | a result shifts the halves, the ring still holds exactly the log above the new low watermark, and the checkpoint is logged and then sent |
| `CommitRing.TraceCommits` | pkg/statemachine/commitstate.go:225-266 | the commits of a trace are the log in order, without gap or repeat |
| `CommitRing.TraceCheckpoints` | pkg/statemachine/commitstate.go:230-239 | the checkpoint requests are those of the interval boundaries, once each and ascending |
| `CommitRing.CheckpointFollowsCommit` | pkg/statemachine/commitstate.go:230-239 | each request directly follows the commit of its sequence number |
| `CommitRing.OneOutstanding` | pkg/statemachine/commitstate.go:111-150 | the requests so far are those with a result and at most one more |
| `ClientWindows.WithBitExact` | pkg/statemachine/stateless.go:38-100 | setting a bit sets that bit and no other |
| `ClientWindows.SetBit` | pkg/statemachine/stateless.go:70-100 | the bit is set in place |
| `ClientWindows.CommittingClient.constructor` | pkg/statemachine/commitstate.go:273-288 | the slots are those of the snapshot's mask |
| `ClientWindows.CommittingClient.MarkCommitted` | pkg/statemachine/commitstate.go:290-293 | the request's slot is set |
| `ClientWindows.CommittingClient.CreateCheckpointState` | pkg/statemachine/commitstate.go:295-360 | the snapshot and the shifted slots in all three cases, and when it panics |
| `ClientWindows.SnapshotExact` | pkg/statemachine/stateless.go:18-30 | `isCommitted` on a snapshot answers for every request number as the live slots do |
| `ClientWindows.SnapshotMoves` | pkg/statemachine/commitstate.go:295-360 | a snapshot keeps the width, its low watermark is the least request that has not committed, and it says how far that moved, or the whole width if all have |
| `ClientWindows.SnapshotFailsIff` | pkg/statemachine/commitstate.go:321-337 | it fails iff all slots have committed and do not end with the window, or more than the width has committed without a gap |
| `ClientWindows.CoverageKept` | pkg/statemachine/commitstate.go:335-337 | the slots keep covering the window iff at most half of them are consumed |
| `ClientWindows.MaskEndsInZero` | pkg/statemachine/commitstate.go:339-351 | the last byte of a mask is zero iff the commits are contiguous |
| `ClientWindows.RunExact` | pkg/statemachine/commitstate.go:273-360 | over any number of checkpoints the slots cover the window and know exactly the committed requests |
| `ClientWindows.RunSnapshotExact` | pkg/statemachine/commitstate.go:295-360 | the snapshot that ends a run says committed for exactly the requests committed so far |
| `ClientWindows.SnapshotsAgreeIff` | pkg/statemachine/commitstate.go:295-360 | clients with equal commits and different slot lengths take the same snapshot iff some shared slot is unset, none is shared, or none can be taken |
| `ClientWindows.RestartEqualsContinue` | pkg/statemachine/commitstate.go:273-360 | a client rebuilt from a snapshot and the live one take the same snapshots in every continuation |
| `Buckets.FirstInUnique` | pkg/statemachine/epoch_active.go:72-76 | the first numbers after the last commit give each bucket exactly its first one |
| `Buckets.Owner` | pkg/statemachine/epoch_active.go:53-70 | a bucket goes to the node whose turn it is if that is a leader, and to some leader otherwise |
| `Buckets.AssignBuckets` | pkg/statemachine/epoch_active.go:53-70 | the loop with its overflow index gives every bucket that owner |
| `Buckets.OverflowGoesRound` | pkg/statemachine/epoch_active.go:60-70 | overflowing buckets go round the leaders: two of them share a leader only with a whole round in between |
| `ActiveWindow.LookupFinds` | pkg/statemachine/epoch_active.go:128-140 | the lookup by interval and offset finds the sequence asked for |
| `ActiveWindow.ExtendKeepsInv` | pkg/statemachine/epoch_active.go:376-390 | a new block stays within epoch and stop point, and none of its sequences is below its bucket's lowest unallocated number |
| `ActiveWindow.DropKeepsInv` | pkg/statemachine/epoch_active.go:330-334 | dropping the oldest block keeps the window's invariant |
| `ActiveWindow.AllocateKeepsInv` | pkg/statemachine/epoch_active.go:265-288 | the sequence to allocate is in the window and uninitialized, and allocating keeps the split between allocated and unallocated |
| `ActiveWindow.CommitKeepsInv` | pkg/statemachine/epoch_active.go:306-314 | the next commit is `highestCommit`+1 and within the stop point |
| `ActiveWindow.RunKeepsInv` | pkg/statemachine/epoch_active.go:215-423 | the window's invariant holds in every run |
| `ActiveWindow.AssertionsHold` | pkg/statemachine/epoch_active.go:215-423 | what the assertions on allocation, order and watermarks demand holds in every run |
| `ActiveWindow.OperationsMovePhase` | pkg/statemachine/sequence.go:142-177 | only allocation takes a sequence out of the uninitialized phase |
| `ActiveWindow.ActiveEpoch.constructor` | pkg/statemachine/epoch_active.go:72-93 | a new epoch expects in each bucket its first number after the last commit |
| `ActiveWindow.ActiveEpoch.HighWatermark` | pkg/statemachine/epoch_active.go:496-504 | the high watermark is the last sequence of the last block, or the last checkpoint |
| `ActiveWindow.ActiveEpoch.Sequence` | pkg/statemachine/epoch_active.go:128-140 | the lookup never fails inside the watermarks |
| `ActiveWindow.ActiveEpoch.FilterPreprepare` | pkg/statemachine/epoch_active.go:142-170 | invalid iff not its owner's or beyond the epoch; future iff above the high watermark or beyond the next one of its bucket; past iff below the low watermark or the next one; current otherwise |
| `ActiveWindow.ActiveEpoch.StepPreprepare` | pkg/statemachine/epoch_active.go:242-288 | another's current preprepare is for the lowest unallocated number and allocates it; the replica's own moves its bucket on |
| `ActiveWindow.ActiveEpoch.ApplyCommitMsg` | pkg/statemachine/epoch_active.go:296-317 | commits go to the commit state in order, exactly when the lowest uncommitted sequence commits, and exactly up to the first one that has not |
| `ActiveWindow.ActiveEpoch.ExtendWindow` | pkg/statemachine/epoch_active.go:368-390 | the window is extended exactly to the epoch's end or the stop point, by unallocated sequences only, with an N entry for each new block |
| `ActiveWindow.ActiveEpoch.MoveLowWatermark` | pkg/statemachine/epoch_active.go:319-337 | the low end moves past the stable checkpoint and the rest of the window stays, or the epoch is done iff it has reached its end |
| `ActiveWindow.ActiveEpoch.ProposeFrom` | pkg/statemachine/epoch_active.go:400-419 | an owned bucket proposes until it has no batch or no room, in its next numbers and nowhere else |
| `RequestOrder.SkipFindsNext` | pkg/statemachine/outstanding.go:77-85 | the skip loop ends at the next open request of the bucket and passes over none |
| `RequestOrder.BucketOutstanding.SkipPreviouslyCommitted` | pkg/statemachine/outstanding.go:77-85 | the loop computes that number and terminates |
| `RequestOrder.BucketOutstanding.constructor` | pkg/statemachine/outstanding.go:27-52 | every client starts at its first open request in the bucket |
| `RequestOrder.BucketOutstanding.ApplyAcks` | pkg/statemachine/outstanding.go:106-137 | a batch is accepted iff each request is the one its client is expected to have next |
| `RequestOrder.AcceptedInOrder` | pkg/statemachine/outstanding.go:106-137 | what a bucket has accepted of a client is exactly the initial segment of the client's open requests |
| `RequestOrder.InOrderAccepted` | pkg/statemachine/outstanding.go:106-137 | conversely, batches in that order are accepted |
| `RequestOrder.NoneTwice` | pkg/statemachine/outstanding.go:106-137 | no request is accepted twice in an epoch |
| `Proposals.AppendList.ResetIterator` | pkg/statemachine/client_tracker.go:78-81 | the iterator goes back to the front and the contents stay |
| `Proposals.AppendList.Next` | pkg/statemachine/client_tracker.go:87-91 | the next element is consumed and the contents stay |
| `Proposals.AppendList.GarbageCollect` | pkg/statemachine/client_tracker.go:97-121 | exactly the collected elements go, the order stays |
| `Proposals.ProposalBucket.QueueRequest` | pkg/statemachine/proposer.go:119-126 | a request goes to the ready list or, if valid only after the next checkpoint, to the next one |
| `Proposals.ProposalBucket.AdvanceTo` | pkg/statemachine/proposer.go:128-145 | reaching the next checkpoint moves the checkpoint on and releases what waited for it behind what was ready, otherwise both stay; then the batch is filled from the front until it is full or nothing is left |
| `Proposals.ProposalBucket.HasPending` | pkg/statemachine/proposer.go:152-155 | after advancing, a batch is there iff it is non-empty and full |
| `Proposals.AdvanceKeepsLine` | pkg/statemachine/proposer.go:128-145 | advancing changes no order and keeps a batch within its size |
| `Proposals.AdvanceMeans` | pkg/statemachine/proposer.go:128-145 | the same of the function that the method computes |
| `Proposals.StepKeepsInv` | pkg/statemachine/proposer.go:77-161 | within an epoch pushes, visits, advances, cuts and garbage collection keep each client's line of requests in order |
| `Proposals.ProposedTaken` | pkg/statemachine/proposer.go:77-161 | under that invariant a follower accepts everything proposed |
| `LeaderEpochs.EventKeepsReady` | pkg/statemachine/client_tracker.go:50-156 | pushes, visits, garbage collection, checkpoints and resets keep the ready list equal to each client's open requests below its ready mark, in order |
| `LeaderEpochs.EventKeepsValidity` | pkg/statemachine/client_hash_disseminator.go:745-800 | allocation never makes a later request number valid earlier, and none waits beyond the next checkpoint |
| `LeaderEpochs.NewEpochBegins` | pkg/statemachine/proposer.go:50-75 | a new epoch begins with the iterator at the front of a complete list in order of validity |
| `LeaderEpochs.EventIsStep` | pkg/statemachine/proposer.go:77-161 | within an epoch every event is a step of that epoch's leader |
| `LeaderEpochs.RunKeepsInv` | pkg/statemachine/client_tracker.go:50-156 | the list, validity and epoch invariants hold in every state of every run over any number of epochs |
| `LeaderEpochs.NeverRejected` | pkg/statemachine/proposer.go:50-161 | in every epoch of every run a follower that began it from the same checkpoint accepts all that the leader proposes, and no batch is over the size |
| `LeaderEpochs.ValidIsOffered` | pkg/statemachine/proposer.go:119-145 | in every run, once a bucket has been advanced to where a queued request is valid, the request is proposed, in the batch or ready for it, and not left waiting while the batch has room |
| `LeaderEpochs.RunKeepsQueued` | pkg/statemachine/proposer.go:119-161 | in every run what was queued in an epoch is proposed or still in the bucket, once each, and what waits there waits for the next checkpoint |
| `LeaderEpochs.StartAssertionIff` | pkg/statemachine/proposer.go:119-126 | when an epoch starts from a commit in the interval after the checkpoint, the assertion passes for all that is ready iff the two coincide or nothing ready waits for the next checkpoint |
| `RequestAcks.ClientReqNo.Ack` | pkg/statemachine/client_hash_disseminator.go:802-836 | an acknowledgement is recorded and makes the digest weak or strong on reaching the threshold |
| `RequestAcks.ClientReqNo.ApplyNewRequest` | pkg/statemachine/client_hash_disseminator.go:429-483 | a request already persisted is not acknowledged, the first one is, and later ones are not, except that the null request is if it is among them |
| `RequestAcks.ClientReqNo.PromoteNull` | pkg/statemachine/client_hash_disseminator.go:518-543 | the null request is brought in and acknowledged iff it is not persisted and two requests are correct |
| `RequestAcks.ClientReqNo.ResendAck` | pkg/statemachine/client_hash_disseminator.go:598-618 | what is acknowledged again is the null request if several are persisted, and else the only one |
| `RequestAcks.ClientReqNo.Reinitialize` | pkg/statemachine/client_hash_disseminator.go:369-406 | the acknowledgements of configured nodes are recounted exactly |
| `RequestAcks.AckedExact` | pkg/statemachine/client_hash_disseminator.go:802-836 | an acknowledgement adds its sender for its digest and nothing else, and weak and strong stay exactly the digests with f+1 and with a quorum of distinct ackers |
| `RequestAcks.PersistedMeans` | pkg/statemachine/client_hash_disseminator.go:429-483 | persisting adds the request and changes nobody's acknowledgements |
| `RequestAcks.PersistedOneVoice` | pkg/statemachine/client_hash_disseminator.go:429-483 | a replica acknowledges at most one non-null digest |
| `RequestAcks.StrongAgree` | pkg/statemachine/client_hash_disseminator.go:802-836 | in every run two correct replicas hold no two different non-null strong digests |
| `RequestAcks.SeveralStrongIncludeNull` | pkg/statemachine/proposer.go:97-104 | if several digests are strong, one is the null request |
| `RequestAcks.ResendFailsIff` | pkg/statemachine/client_hash_disseminator.go:598-618 | in every state of every run acknowledging again fails iff two or more requests and no null request are persisted |
| `RequestAcks.ResendMayFail` | pkg/statemachine/client_hash_disseminator.go:598-618 | every correct replica reaches such a state by persisting two requests under one number |
| `WriteAheadDiscipline.Processor.Process` | processor.go:49-125 | on success the trace grows by one effect per entry that is not a send, in order and with its index, the sync, and then one effect per target of every send, in order: to the other node, or back to this one. On failure it grows by the effects that come before the first failure |
| `WriteAheadDiscipline.RunSafe` | processor.go:49-125 | over any number of action lists no message leaves unless its entries were written and synced |
| `WriteAheadDiscipline.FailureSafe` | processor.go:49-125 | nor if the processor then fails in the middle of a list |
| `WriteAheadDiscipline.OperationsDisciplined` | pkg/statemachine/sequence.go:202-317 | the action lists of a sequence back their Preprepare, Prepare and Commit messages |
| `WriteAheadDiscipline.EchoDisciplined` | pkg/statemachine/epoch_target.go:311-356 | the list that ends in a NewEpochEcho backs it with the N entry and all Q entries |
| `WriteAheadDiscipline.JoinedDisciplined` | pkg/statemachine/actions.go:169-177 | lists joined from outputs of sequence operations, echo lists and unguarded tasks back their messages |
| `WriteAheadDiscipline.HandedOverSafe` | processor.go:49-125 | hence over any number of such lists, also if the processor fails in another one, no guarded message leaves unless its entries were written and synced |

## Left out

- Reconfiguration, client removal and changes of the checkpoint interval: the configuration is a constant of each model.
- State transfer, and the T and F entries it needs: the commit state is modelled while it is not transferring, and a replica echoes only configurations that start at or below its latest checkpoint.
- Checkpoint messages and their tallies (`checkpoints.go`): that a checkpoint is stable is an input.
- Recovery after a crash into a running epoch: a replica is modelled from its initial log on, and an epoch target from its beginning.
- Ticks, suspicion, rebroadcast and liveness, except the acknowledgement rules of a request's tick.
- Message buffers: a buffered message is one that is delivered later or never.
- Fetching of batches and requests, forwarding, and the client processor; batch lookup is a function from digests to requests.
- The digests of requests that a sequence still waits for, across sequences (`advanceRequests`): the set of outstanding requests is an input of `Sequences`.
- Wrap-around of 64-bit sequence numbers.
- Serializers, storage back ends, event logs, status and command-line tools: input, output and user interface.
- ReplicaVotes.EchoKeepsInv: for configurations that open their second interval; `ReplicaVotes.EchoCovers` says when the log is covered otherwise.
- ReplicaVotes.ReadyKeepsInv: for configurations whose sequence numbers lie in opened intervals, as the echoing replica's do under the same condition.
- WriteAheadLog.AppendKeepsWellFormed: what may be appended is a hypothesis there; `ReplicaVotes.StepKeepsInv` discharges it for every step.
- EpochChain.CarriedForward: needs that no configuration in between ended below the number and that all were verified, because the source does not keep the property otherwise; `Continuations.EarlyEndReassigns` is the converse of the first and `EpochChain.NextVerifiedIff` says when the second fails.
- EpochChain.Agreement: the same conditions.
- EpochChain.RunAgreement: the same conditions, read off the state, and the restriction of `ReplicaVotes.EchoKeepsInv` on what is echoed.
- EpochChain.NextKeepsInv: that a replica waits with a verified configuration is approximated by what it lacks: the starting checkpoint, or the batch of a carried digest that it has not preprepared. A correct leader may offer all nodes or itself as leaders in any epoch; the source ties the choice to how the last epoch ended.
- EpochAcceptance.AcceptedIsJustified: messages name each checkpoint number once, since the source accepts repeated ones.
- NewEpochBroadcast.EpochTarget.VerifyNewEpochState: whether verification and fetching succeed is an input there; `NewEpochVerification` models the verification itself and `TargetRuns` what the answers stand for.
- ThreePhase.RunAgreement: a preprepare reaches a sequence once, as the window guarantees, and a replica's own messages come back in the order it sent them.
- ThreePhase.CommittedBacked: after a tally filled by an owner counted twice the counted nodes need not meet every quorum, which is the source's behaviour.
- JointRuns.JointNextKeepsInv: a replica works on a sequence in its active epoch, beyond what it echoed and what it sent ready for there; the values of checkpoints are inputs, so that correct replicas agree on them is not derived from their commits.
- CommitSafety.CommitsAgree: carries the window condition and verified echoes, and asks for a locked first digest or within an epoch for a correct leader, commits by phases or equal echoes, because without them the source does not keep the property; runs have the restriction of `ReplicaVotes.EchoKeepsInv`.
- CommitSafety.PhaseCommitsAgree: carries the window condition and verified echoes and excludes a first tally filled by an owner counted twice, for the same reason.
- CommitRing.CommitState.ApplyCheckpointResult: a result comes only for the checkpoint that is outstanding, and without a pending reconfiguration.
- ActiveWindow.ActiveEpoch.MoveLowWatermark: a stable checkpoint is one whose result the replica has, and lies on an interval boundary.
- NewEpochVerification.ChangeTracker.VerifyNewEpochState: a panic inside the construction counts as not accepted; that a right message is accepted is `NewEpochVerification.CorrectLeaderAccepted`.
- ClientWindows.RunExact: a request one past the window is admitted where its slot exists; without one the source fails on the index.
- ClientWindows.RestartEqualsContinue: requests are within the window's width; for the number one past it see `ClientWindows.SnapshotsAgreeIff`.
- ActiveWindow.ActiveEpoch.StepPreprepare: the phase that a message takes a sequence to is an input, as in `ActiveWindow.OperationsMovePhase`.
- ActiveWindow.ActiveEpoch.ApplyCommitMsg: likewise for the phase after a commit message.
- ActiveWindow.ActiveEpoch.ProposeFrom: likewise, and the batches of a bucket are a count; their contents are in `Proposals`.
- LeaderEpochs.NeverRejected: leader and follower begin an epoch from the same checkpoint, client states only grow from one checkpoint to the next, and a request of the leader's own bucket commits in the epoch only after the leader proposed it. Reinitialization after a reconfiguration is not modelled.
- LeaderEpochs.StartAssertionIff: for a last commit in the interval that follows the checkpoint.
- RequestAcks.StrongAgree: acknowledgements are counted from RequestAck messages only, not from the sources of carried batches (`epoch_target.go:255-261`).
- WriteAheadDiscipline.RunSafe: the lists are disciplined by hypothesis; `WriteAheadDiscipline.HandedOverSafe` discharges it for joined lists.
- WriteAheadDiscipline.FailureSafe: the same hypothesis, discharged in the same place.
- WriteAheadDiscipline.HandedOverSafe: guards Preprepare, Prepare, Commit and NewEpochEcho; the epoch number inside a message is not matched against the log, and NewEpochReady is not guarded because the source also sends it without P entries.
- EpochChain.LockedCarries: the same conditions.
- EpochChain.LockedIff: for the next epoch, with exactly f faulty nodes and every correct one reporting from below the number; it decides what the conditions admit, not whether the changes suffice for a configuration.
- EpochChain.DeliveredKept: carries the window condition and verified echoes; that a quorum readied on echoes is sufficient, and `EpochChain.LockedIff` is the exact condition.
- EpochChain.LowWatermarksSuffice: for verified echoes.
- Continuations.EarlyEndReassigns: for a number within every member's current window, a non-empty batch and an owner that is faulty or among the quorum.
- CommitSafety.LaterCommitAgrees: carries the window condition and verified echoes.
- CommitSafety.StartsAtLastCommit: carries the window condition and verified echoes, and asks for locked commits; `StrandedCommit.CommitMayBeStranded` is a run without.
- SlotRuns.QuorumPrepares: for non-empty batches.
- SlotRuns.QuorumCommits: for non-empty batches.
- TargetRuns.RunRefines: the answers of other components are assumed to mean what the source makes them mean: NewEpoch messages come from the leader, verification accepts what genuine epoch changes justify (`EpochAcceptance.AcceptedIsJustified`), a configuration is fetched only when it may be echoed, and the restrictions of `ReplicaVotes.EchoKeepsInv` and `ReplicaVotes.ReadyKeepsInv` hold.
