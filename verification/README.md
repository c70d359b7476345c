# Verified model of the Hoosat node's state derivations and protocols

This project models the parts of the Hoosat full node (HTND) whose correctness does not show in any single function:
how the UTXO set is derived, committed to, diffed and delivered; the protocols that keep it consistent while threads,
failing sends, crashes and shutdown interleave; the walks over the selected-parent chain; and the arithmetic of the
wallet's sweep, of the pruning-depth inference and of the set fingerprint. Every statement is a for-all over inputs,
chains or runs. Where a promise of the code turns out to hold only under a condition, the model keeps the code as it
is and states the condition as an equivalence or proves it sufficient, next to a concrete run or input that breaks it.

| file | subject |
|---|---|
| `Utxo.dfy`, `Dag.dfy`, `Arithmetic.dfy`, `Trace.dfy` | coins, transactions, acceptance data, and their meaning as a sequence of coin events; the selected chain; 64-bit words; facts that some actions of a run establish and others end |
| `Acceptance.dfy` | what accepted transactions do to a set of coins, outpoint by outpoint |
| `UtxoDerivation.dfy` | the streaming overlay derivation against the plain map replay |
| `Commitment.dfy` | the incrementally maintained MuHash against the hash of the replayed set |
| `BaseCheck.dfy`, `ReplayCheck.dfy` | the forensic checks of the stored pruning point set against its header and the headers above it, and of virtual's table against the replayed chain |
| `UtxoDiff.dfy`, `MutableUtxoDiffs.dfy` | diff composition and difference, atomic application of a transaction with an undo log |
| `ChangeDelivery.dfy` | change sets, the "earlier change sets dropped" flag, the events queue, the UTXO index and its check at the next start |
| `VirtualDrain.dfy`, `VirtualLookup.dfy` | draining virtual in chunks, and chunked lookups while virtual changes |
| `Shutdown.dfy`, `Workers.dfy`, `PrefixSwap.dfy` | shutdown order, background workers, swapping a staging consensus in with crashes |
| `ChainRepair.dfy`, `TrustedWindow.dfy`, `PruningList.dfy` | walks down the selected chain that stop early, share visited sets or take hints |
| `TxMass.dfy`, `Sweep.dfy`, `DepthBracket.dfy`, `Fingerprint.dfy`, `HexCodec.dfy` | the mass calculator and greedy splitting, inference from headers, partitioned fingerprints, the transaction list codec |

Conventions. Stores are maps; a read that fails is a missing key or a member of a `bad` set. Hashes are opaque 32-byte
values. A MuHash is the pair of multisets it was built from, so hash collisions and serialization are taken to be
injective. 64-bit and 32-bit wrap-around is written out. Code that updates objects, maps or buffers is a class or a
method with loops, specified by a function; protocols are step relations (`Enabled`, `Do`, `Reaches`) whose runs
contain every interleaving, failure and crash as actions. What such a state means is also said by the actions of its
run alone: `Standing(up, down, n)` is that among the first `n` actions one is an `up` and no `down` came after it.
Acyclicity of the selected chain is the requirement that a block's blue score is above its selected parent's.

Where code and documentation disagree the code is followed. These results are about such a gap, each next to the exact
condition under which the promise holds: `UtxoDerivation.OverlayCanResurrectACoin` (a base coin re-created and spent
in the window is streamed again), `ChangeDelivery.SilentLossSurvives` (an error between committing virtual and the
send phase loses a change set, and a later delivery makes the stored parents hide that from every start),
`ChangeDelivery.LostOverrideSurvives` (so does a process that ends before a reset is handled),
`ChangeDelivery.LateSendSurvives` (and a change set that a replaced consensus still sends behind the reset),
`ChangeDelivery.FailedResetSurvives` (and a reset that fails), `VirtualDrain.FailedInsertSlipsThrough` (an insert that
fails after storing its block leaves virtual counted as updated), `PrefixSwap.LateWriteIsUncovered` (a call still
inside a replaced consensus writes under a prefix that was already deleted) and
`PrefixSwap.CommitWithoutStagingIsUnsound` (a commit only asks for an inactive marker).

## Model

| member | source | states |
|---|---|---|
| `Acceptance.TransactionMeans` | domain/consensus/consensus.go:2701-2722 | replaying a transaction leaves its outputs' coins at its own outpoints, nothing where it only spends, and every other outpoint alone |
| `Acceptance.OutputsBecomeCoins` | domain/consensus/consensus.go:2709-2722 | with at most 2^32 outputs, output k is the coin at position k of the transaction's id, with its value, script, coinbase flag and DAA score |
| `Acceptance.MergedBlockMeans` | domain/consensus/consensus.go:2696-2724 | after a merged block an outpoint is what the last accepted transaction to touch it left there; transactions that are not accepted do not count |
| `Acceptance.ChainBlockMeans` | domain/consensus/consensus.go:2680-2725 | the same for a chain block, over all its merged blocks in order, under the score of the block that merges them |
| `Acceptance.ChainMeans` | domain/consensus/consensus.go:2679-2725 | the replayed set of a whole chain, outpoint by outpoint: the coin the last accepted transaction to touch it left, stamped with the merging block's own score, its header's if it has one |
| `Acceptance.ChainLeaves` | domain/consensus/consensus.go:2679-2725 | and the base set's coin where none does |
| `Acceptance.ChainSettles` | domain/consensus/consensus.go:2679-2725 | at every outpoint one of the two is the case |
| `UtxoDerivation.OverlayEqualsReplay` | domain/consensus/consensus.go:2679-2762 | the set described by the two overlay maps equals plain delete-and-insert replay if and only if no coin of the base set has a re-creation and then a spend as the last two events on it, for every base and every event sequence |
| `UtxoDerivation.OverlayAt` | domain/consensus/consensus.go:2702-2722 | what the `created` and `spentFromPruningPointSet` maps hold for an outpoint, in terms of the last events on that outpoint only |
| `UtxoDerivation.ReplayAt` | cmd/utxoforensics/main.go:1303-1329 | what plain replay holds for an outpoint, in terms of the last event on it |
| `UtxoDerivation.RecreatedThenSpentStep` | domain/consensus/consensus.go:2702-2708 | how one more event changes whether an outpoint is re-created and then spent |
| `UtxoDerivation.FreshOutputsSuffice` | domain/consensus/consensus.go:2679-2762 | a window that never creates an outpoint of the base set (unique transaction ids) always yields the replayed set |
| `UtxoDerivation.OverlayCanResurrectACoin` | domain/consensus/consensus.go:2703-2705 | stores with one valid block above the pruning point over which the derivation succeeds and streams the base coin, while the replayed set is empty, for every choice of hashes, output and base coin |
| `UtxoDerivation.SameEventsIffRulesAgree` | domain/consensus/utils/utxo/acceptance.go:175-189 | the subnetwork rule and the position rule for coinbase coins give the same coin events if and only if they agree on every accepted transaction that has outputs |
| `UtxoDerivation.CreationsDetermineTheFlag` | domain/consensus/consensus.go:2709-2722 | the coins two coinbase flags create are equal exactly when the flags are or there are no outputs |
| `UtxoDerivation.CollectChain` | domain/consensus/consensus.go:2660-2677 | the walk returns exactly the selected chain above the pruning point, newest first, and fails exactly when there is none, with the error of the block it stops at |
| `UtxoDerivation.SpendInputs` | domain/consensus/consensus.go:2702-2708 | the maps after a transaction's inputs are the overlay of the longer event sequence |
| `UtxoDerivation.CreateOutputs` | domain/consensus/consensus.go:2709-2722 | the same for outputs, failing exactly above 2^32 outputs |
| `UtxoDerivation.ApplyTransaction` | domain/consensus/consensus.go:2701-2722 | inputs before outputs, as one extension of the event sequence |
| `UtxoDerivation.ApplyMergedBlock` | domain/consensus/consensus.go:2696-2724 | only accepted transactions contribute, in order; overflow exactly when an accepted one cannot be indexed |
| `UtxoDerivation.ApplyBlock` | domain/consensus/consensus.go:2680-2725 | all merged blocks of a chain block with the merging block's DAA score |
| `UtxoDerivation.ApplyChain` | domain/consensus/consensus.go:2680-2725 | from the oldest block up; succeeds exactly when every block of the chain is readable, with the overlay of the whole window's events; otherwise the error names what the oldest unreadable block lacks |
| `UtxoDerivation.StreamBase` | domain/consensus/consensus.go:2727-2754 | streams each surviving base coin once, with the window's entry where it shadows the base's, leaving exactly the window's other coins; stops exactly where the callback fails |
| `UtxoDerivation.StreamCreated` | domain/consensus/consensus.go:2756-2762 | emits each remaining created coin once, and nothing else |
| `UtxoDerivation.Stream` | domain/consensus/consensus.go:2727-2764 | on success the emitted list holds each coin of the overlay's set exactly once; a callback error comes at the callback's own failing call, with a coin still to emit, and everything emitted before it belongs to that set |
| `UtxoDerivation.IterateUtxoSetAtBlock` | domain/consensus/consensus.go:2628-2765 | refuses exactly when the pending update fails or the set is still being checked; otherwise completes or is stopped by its callback exactly when the stores hold what the block's derivation reads, and else returns the walk's error or that of the oldest unreadable block; the emitted list enumerates the overlay's set without repeats, and enumerates the replayed set if and only if no base coin is re-created and then spent |
| `UtxoDerivation.ReplayTransaction` | cmd/utxoforensics/main.go:1309-1326 | the map update is the replay of the transaction's events |
| `UtxoDerivation.ReplayBlock` | cmd/utxoforensics/main.go:1303-1329 | the map update is the replay of the block's events |
| `UtxoDerivation.ReplayForward` | cmd/utxoforensics/main.go:1287-1341 | the map at the tip is the replay of the given chain onto the base, produced exactly when every block's DAA score and acceptance data are there |
| `UtxoDerivation.ReplayToVirtual` | cmd/utxoforensics/main.go:1287-1352 | the same with virtual's own acceptance data, under virtual's stored DAA score, on top |
| `UtxoDerivation.ValidBlocksSameEvents` | domain/consensus/utils/utxo/acceptance.go:175-189 | over blocks whose coinbase is the transaction at position 0 and no other, both derivations see the same events for the whole chain |
| `UtxoDerivation.DerivationsAgree` | domain/consensus/consensus.go:2660-2762 | over such blocks, the streamed set equals the forensic replay if and only if no base coin is re-created and then spent |
| `ReplayCheck.CollectWithin` | cmd/utxoforensics/main.go:1267-1285 | the walk returns the selected chain down to the pruning point exactly when there is one within the limit |
| `ReplayCheck.WalksAgree` | cmd/utxoforensics/main.go:1267-1285 | where virtual genesis has no GHOSTDAG data, this walk and that of the streaming derivation differ in the limit only |
| `ReplayCheck.CompareWithTable` | cmd/utxoforensics/main.go:1354-1403 | each counter of the report is the number of outpoints it is named for: in the table, in one of the two sets only, with other prints, with prints that differ in the DAA score alone |
| `ReplayCheck.SamePrint` | cmd/utxoforensics/main.go:836-846 | two coins have one print exactly when they agree in amount, score, coinbase flag, script version and the sum over the script |
| `ReplayCheck.Check` | cmd/utxoforensics/main.go:1250-1403 | a report exactly when the chain is short enough and every block of it and virtual can be loaded; it then compares the table with the replay of the chain and of virtual's merge set onto the pruning point set |
| `ReplayCheck.CleanReport` | cmd/utxoforensics/main.go:1403-1406 | nothing is counted as different if and only if both sets have the same prints at the same outpoints |
| `ReplayCheck.ScoreOnlyReport` | cmd/utxoforensics/main.go:1388-1394 | no outpoint is one-sided and every value difference is one of DAA score if and only if the sets agree once DAA scores are erased |
| `ReplayCheck.CountsBalance` | cmd/utxoforensics/main.go:1403-1406 | the counts account for every coin of both sets |
| `Commitment.EventKeepsStep` | cmd/utxoforensics/main.go:540-565 | one event keeps a commitment equal to its set's hash if and only if the recorded spent entry is the coin the set holds (or nothing is recorded and nothing is held) and a created coin is new |
| `Commitment.CommitmentTracksReplay` | cmd/utxoforensics/main.go:540-565 | over every event sequence, the commitment is the hash of the replayed set after every event if and only if every event is truthful about the set it meets |
| `Commitment.InStepAfterPrefix` | cmd/utxoforensics/main.go:691-735 | in particular after every prefix |
| `Commitment.RemoveInputs` | cmd/utxoforensics/main.go:541-551 | removes the recorded entries in order and stops at the first input without one |
| `Commitment.AddOutputs` | cmd/utxoforensics/main.go:552-564 | adds every output's coin, failing exactly above 2^32 outputs |
| `Commitment.AddTx` | cmd/utxoforensics/main.go:540-565 | succeeds exactly when every input is resolved and every output indexable, with the effect of the transaction's events; on an unresolved input only the inputs before it are removed |
| `Commitment.BaseMultiset` | cmd/utxoforensics/main.go:617-633 | the base multiset is the from-scratch hash of the stored set, however its listing is ordered |
| `Commitment.CommitmentAfterBlock` | cmd/utxoforensics/main.go:691-735 | on a truthful chain the commitment after every block is the hash of the set plain replay reaches there |
| `BaseCheck.ApplyBlock` | cmd/utxoforensics/main.go:705-729 | succeeds exactly when the header, the acceptance data and every merged block's own DAA score are there and the accepted transactions can be applied; both multisets then have the block's events, one under the merging block's score and one under each merged block's own |
| `BaseCheck.WalkUp` | cmd/utxoforensics/main.go:691-731 | the k-th pair of commitments is the one after the k-th block under each rule, and the walk ends early exactly at the first block that cannot be applied |
| `BaseCheck.LocateBase` | cmd/utxoforensics/main.go:655-688 | finds the first chain index within 20000 of the pruning point's whose stored multiset has the set's hash, or there is none |
| `BaseCheck.Check` | cmd/utxoforensics/main.go:572-749 | without the header nothing is checked; a set that misses the header's commitment is looked up among the stored multisets and nothing is walked; otherwise every block from the pruning point up to the first that cannot be applied gets the verdict of its own header |
| `BaseCheck.MergingVerdictMeans` | cmd/utxoforensics/main.go:731-744 | on a truthful chain a verdict credits the merging-block rule if and only if the header commits to the hash of the set plain replay reaches at that block |
| `BaseCheck.CreatingVerdictMeans` | cmd/utxoforensics/main.go:731-744 | and the creating-block rule if and only if it commits to the hash of the set reached under every merged block's own score |
| `BaseCheck.DegenerateVerdicts` | cmd/utxoforensics/main.go:731-744 | where every merged block has the score of the block merging it, the verdict is always both or neither |
| `Commitment.HashDeterminesCoins` | cmd/utxoforensics/main.go:617-636 | a commitment is the hash of at most one set |
| `Commitment.StreamedSetMatchesCommitment` | domain/consensus/consensus.go:2660-2762 | on a truthful chain of valid blocks the set the node streams hashes to the incremental commitment if and only if no base coin is re-created and then spent |
| `UtxoDiff.ResolveConflicts` | domain/consensus/utils/utxo/diff_algebra.go:107-132 | accepts exactly when every outpoint that meets the rule has tolerably equal entries |
| `UtxoDiff.IsTolerableConflict` | domain/consensus/utils/utxo/diff_algebra.go:82-87 | two entries are tolerated exactly when both are coinbase coins or amount and script agree |
| `UtxoDiff.ComposedMeaning` | domain/consensus/utils/utxo/diff_algebra.go:315-351 | composing diffs that fit one after the other never conflicts; the result fits the base and means applying both if and only if no coin the second adds shares its DAA score with a different base coin at that outpoint |
| `UtxoDiff.DifferenceMeaning` | domain/consensus/utils/utxo/diff_algebra.go:216-307 | for two diffs from one base, the difference is computed without error and leads from the first's set to the second's if and only if the DAA scores settle every outpoint |
| `UtxoDiff.DifferenceConflictAt` | domain/consensus/utils/utxo/diff_algebra.go:216-275 | which outpoints the four conflict rules reject, for diffs that fit a base |
| `UtxoDiff.DifferenceAt` | domain/consensus/utils/utxo/diff_algebra.go:276-307 | at one outpoint the difference is right exactly when coins both diffs add with one score are one coin |
| `UtxoDiff.RoundTrip` | domain/consensus/utils/utxo/diff_algebra.go:216-351 | composing the first diff with the difference fits the base and leads to the second diff's set if and only if at every outpoint the DAA scores settle the difference and no coin the second diff adds, where the first adds none of its score, shares its score with a different coin of the base |
| `MutableUtxoDiffs.AddedMeaning` | domain/consensus/utils/utxo/mutable_utxo_diff.go:256-345 | adding a coin to a fitting diff means the set with the coin, exactly under the stated condition on what the diff and the base hold at that outpoint |
| `MutableUtxoDiffs.RemovedMeaning` | domain/consensus/utils/utxo/mutable_utxo_diff.go:347-372 | removing a coin means the set without it, exactly when the set holds that coin or the diff replaced that very coin by one with its score |
| `MutableUtxoDiffs.DiffTracksReplay` | domain/consensus/utils/utxo/mutable_utxo_diff.go:192-236 | accumulating events keeps the diff fitting its base and meaning plain replay after every event if and only if every event meets its step's exact condition |
| `MutableUtxoDiffs.DiffRunIsReplay` | domain/consensus/utils/utxo/mutable_utxo_diff.go:192-236 | truthful events whose DAA scores name one coin meet it: accumulating them never fails and means plain replay |
| `MutableUtxoDiffs.AccumulatedDiff` | domain/consensus/utils/utxo/mutable_utxo_diff.go:192-236 | the diff accumulated from nothing takes the base set to the replayed set |
| `MutableUtxoDiffs.StepUndone` | domain/consensus/utils/utxo/mutable_utxo_diff.go:150-169 | restoring the snapshot taken before a step undoes the step, whatever the rest of the log |
| `MutableUtxoDiffs.SnapshotHarmless` | domain/consensus/utils/utxo/mutable_utxo_diff.go:150-169 | a snapshot before a step that then changes nothing does not alter what the log restores |
| `MutableUtxoDiffs.IntersectionWithRemainder` | domain/consensus/utils/utxo/diff_algebra.go:156-164 | splits a collection by outpoint-and-score membership, in any map order |
| `MutableUtxoDiffs.CompositionIsTolerable` | domain/consensus/utils/utxo/diff_algebra.go:324-336 | the two scans before a composition reject exactly the conflicting outpoints |
| `MutableUtxoDiffs.IsSameCoin` | domain/consensus/utils/utxo/mutable_utxo_diff.go:251-254 | entries are one coin exactly when amount, coinbase flag and script agree |
| `MutableUtxoDiffs.MutableUtxoDiff.WithDiffInPlace` | domain/consensus/utils/utxo/diff_algebra.go:315-351 | succeeds exactly when no outpoint conflicts, becoming the composition; otherwise unchanged |
| `MutableUtxoDiffs.MutableUtxoDiff.DifferenceIsTolerable` | domain/consensus/utils/utxo/diff_algebra.go:216-275 | the four scans reject exactly the conflicting outpoints |
| `MutableUtxoDiffs.MutableUtxoDiff.DiffFrom` | domain/consensus/utils/utxo/diff_algebra.go:216-307 | errs exactly on a conflict and otherwise returns the difference |
| `MutableUtxoDiffs.MutableUtxoDiff.AddEntry` | domain/consensus/utils/utxo/mutable_utxo_diff.go:256-345 | the new diff, or unchanged with an error |
| `MutableUtxoDiffs.MutableUtxoDiff.RemoveEntry` | domain/consensus/utils/utxo/mutable_utxo_diff.go:347-372 | the new diff, or unchanged with an error |
| `MutableUtxoDiffs.MutableUtxoDiff.Rollback` | domain/consensus/utils/utxo/mutable_utxo_diff.go:195-200 | restores the log last entry first |
| `MutableUtxoDiffs.MutableUtxoDiff.AddTransaction` | domain/consensus/utils/utxo/mutable_utxo_diff.go:192-236 | atomic: either the whole transaction's effect, exactly when every step succeeds, or the diff exactly as it was; a nil dereference exactly when missing inputs are not skipped and one is reached before anything fails |
| `ChangeDelivery.HandlingReaches` | app/rpc/manager.go:76-103 | handling everything queued, whatever it is, makes the index hold at each coin what the last word of the queue on that coin says |
| `ChangeDelivery.HeldKept` | domain/consensus/consensus.go:539-639 | every commit, send, late send, loss, reset, failed reset and handled event keeps the history's account of what the index will hold right, coin by coin |
| `ChangeDelivery.CountedKept` | domain/consensus/consensus.go:591-639 | the flag is up exactly while more change sets were committed since the last delivery than are in flight or were lost before the send phase |
| `ChangeDelivery.AssuredKept` | domain/consensus/consensus.go:597-639 | a queued change set of virtual's parents that carries no flag and follows none is only there when nothing announced was lost, whatever a replaced consensus sends in between |
| `ChangeDelivery.ActionKeepsInv` | domain/consensus/consensus.go:539-639 | every insert, resolve, send, send of a replaced consensus, failed send, abort, replacement, reset, failed reset, restart and handled event keeps the invariant |
| `ChangeDelivery.RunKeepsInv` | domain/consensus/consensus.go:539-639 | so does every run |
| `ChangeDelivery.IndexFollowsVirtual` | app/rpc/manager.go:76-103 | in every reachable state with no reset waiting to be queued, and at every coin, the index is going to hold exactly what virtual holds, unless a replaced consensus has the last word in the queue or the history of commits, losses, resets and its sends says what the index will hold instead, and then that differs from virtual |
| `ChangeDelivery.IndexMatchesVirtual` | domain/utxoindex/utxoindex.go:287-335 | with everything handled, the index is virtual's set if and only if nothing is held back by a loss, a failed reset or a send of a replaced consensus |
| `ChangeDelivery.FlagIsExact` | domain/consensus/consensus.go:591-639 | in every run a delivered change set is the one committed last, and carries the flag exactly when, by the run's own actions, one was lost in its send phase and nothing was delivered and no consensus started since; that is the whole truth about committed change sets exactly when none was lost earlier than that phase or one was also lost in it |
| `ChangeDelivery.FlagFollows` | domain/consensus/consensus.go:591-639 | the flag is up exactly from a failed send of a change set, or of the block it was committed with, until the next delivery or new consensus object |
| `ChangeDelivery.InFlightFollows` | domain/consensus/consensus.go:539-572 | a change set is in flight exactly from its commit until it is sent or lost |
| `ChangeDelivery.VirtualFollows` | domain/consensus/consensus.go:539-572 | virtual holds at each key what the last commit to add or remove that key, or the last new consensus, put there |
| `ChangeDelivery.QueueFollows` | app/rpc/manager.go:76-103 | the channel holds, in order, the events put in since the process started, less those taken |
| `ChangeDelivery.HandleMeans` | domain/utxoindex/utxoindex.go:287-335 | what handling an event does to the index at each key, to its stored parents and to its marker |
| `ChangeDelivery.FailedResetMeans` | domain/utxoindex/utxoindex.go:167-232 | what a reset that fails leaves, by how far it got |
| `ChangeDelivery.RestartMeans` | domain/utxoindex/utxoindex.go:260-284 | a start rebuilds the index exactly where the marker is there or the stored parents are not virtual's |
| `ChangeDelivery.ResetFollows` | app/rpc/manager.go:242-261 | a reset is outstanding exactly when, by the actions, a consensus was replaced and its reset is not queued, or is queued and not taken |
| `ChangeDelivery.LosslessMatches` | domain/utxoindex/utxoindex.go:287-335 | in a run in which nothing fails the index is virtual's set whenever nothing is outstanding |
| `ChangeDelivery.AnythingCanFail` | domain/consensus/consensus.go:574-639 | every send phase can fail or not be reached, and the process end or the consensus be replaced, at any time |
| `ChangeDelivery.RestartExact` | domain/utxoindex/utxoindex.go:260-284 | the index after a restart that finds the marker or other parents is virtual's set; from every reachable state with no reset due it is so if and only if that is found, or a reset was just handled, or nothing is held |
| `ChangeDelivery.RestartHeals` | domain/utxoindex/utxoindex.go:294-308 | whatever was lost in send phases, announced or not yet, handled or still queued, a restart brings the index back to virtual's set, unless a reset was due, a loss was silent or a change set that a replaced consensus sent behind the last reset was handled |
| `ChangeDelivery.RestartHealsRun` | domain/utxoindex/utxoindex.go:294-308 | by the actions alone: with no reset ahead, and since the last reset was queued nothing aborted before its send phase, no failed or forgotten reset and no send of a replaced consensus, a restart makes the index virtual's set, whatever sends failed |
| `ChangeDelivery.SilentLossSurvives` | domain/consensus/consensus.go:1694-1708 | a run in which the pruning point update fails after virtual was committed and the next change set is delivered: index and virtual differ with nothing outstanding, before and after a restart |
| `ChangeDelivery.LostOverrideSurvives` | app/rpc/manager.go:242-261 | a run that ends between replacing the consensus and handling the reset, after a change set of the new consensus was handled: the next start keeps the old coins |
| `ChangeDelivery.LateSendSurvives` | domain/domain.go:126-195 | a run in which a call still inside the replaced consensus sends its change set after the reset was handled: once the new consensus delivers again, index and virtual differ with nothing outstanding, before and after a restart |
| `ChangeDelivery.FailedResetSurvives` | domain/utxoindex/utxoindex.go:167-182 | a run in which the reset fails before it did anything and the new consensus then delivers a change set: even a restart keeps the old coins |
| `ChangeDelivery.Consensus.SendBlockAddedEvent` | domain/consensus/consensus.go:574-586 | fails exactly on a full channel for a block that raises an event, and otherwise queues it if it raises one |
| `ChangeDelivery.Consensus.NoteVirtualChangeSetDropped` | domain/consensus/consensus.go:591-595 | raises the flag exactly for a change set someone was to receive, and never lowers it |
| `ChangeDelivery.Consensus.SendVirtualChangedEvent` | domain/consensus/consensus.go:597-639 | fails exactly on a full channel or an unreadable score for a change set someone was to receive, and then the flag is up and the queue untouched; a delivery carries the old flag and lowers it |
| `ChangeDelivery.Consensus.AnnounceInsertedBlock` | domain/consensus/consensus.go:551-572 | the channel, both flags and the result after announcing a block, in every case: a failure leaves the flag up for a change set someone was to receive, a success appends the block's event and then the change set with the old flag |
| `ChangeDelivery.DeliveredIsAnAction` | domain/consensus/consensus.go:597-639 | what the sending method does to channel and flag is one action of the step relation |
| `ChangeDelivery.AnnouncedIsARun` | domain/consensus/consensus.go:551-572 | what announcing a block does is a run of send actions, so the statements over runs are about these methods |
| `VirtualDrain.RunKeepsInv` | domain/consensus/consensus.go:465-507 | mutual exclusion and the meaning of `virtualNotUpdated` hold in every interleaving |
| `VirtualDrain.RunsOnlyOnResolvedVirtual` | domain/consensus/consensus.go:465-507 | in every interleaving a virtual-updating insert or a block build runs only while it alone holds the lock, `virtualNotUpdated` is false and the last chunk or stored block to speak of virtual was a chunk that completed; and the blocks that were stored and not resolved since are then exactly those whose insert failed between storing the block and raising the flag |
| `VirtualDrain.PendingFollows` | domain/consensus/consensus.go:539-554 | by the actions alone: the pending blocks are those not covered at the start or stored without a virtual update, and not resolved by a later chunk; the slipped ones are those of them whose insert failed after storing |
| `VirtualDrain.FlagFollows` | domain/consensus/consensus.go:552-554 | `virtualNotUpdated` is false exactly while the last to speak of it was a chunk that completed, not an incomplete one or a stored block |
| `VirtualDrain.ThreadFollows` | domain/consensus/consensus.go:465-507 | a thread has finished exactly when its work ended or its resolving failed, and holds the lock exactly from taking it until then or until a chunk that leaves more to resolve |
| `VirtualDrain.TestFollows` | domain/consensus/consensus.go:465-507 | a thread tests `virtualNotUpdated` exactly after taking the lock: a build every time, a virtual-updating insert the first time only |
| `VirtualDrain.ChunkFollows` | domain/consensus/consensus.go:1663-1685 | it resolves a chunk exactly when the test found virtual not updated, or an insert has the lock again after a chunk, or it came to resolve |
| `VirtualDrain.WorkFollows` | domain/consensus/consensus.go:465-507 | it does what it came for exactly when the test found virtual updated, a chunk completed with the lock still held, or it inserts without a virtual update |
| `VirtualDrain.AnyOutcome` | domain/consensus/consensus.go:1687-1715 | a chunk can fail at either point and resolve any part of what is pending, and an insert can end in each of its ways |
| `VirtualDrain.FailedInsertSlipsThrough` | domain/consensus/consensus.go:544-554 | a run with such a failure after which a build runs over a virtual that misses the block |
| `VirtualDrain.FinishingStep` | domain/consensus/consensus.go:1663-1685 | in every reachable state with an unfinished thread some step is enabled that lowers what is left until all threads have finished |
| `VirtualDrain.EveryoneCanFinish` | domain/consensus/consensus.go:465-507 | so from every reachable state there is a run, with no new thread and nothing failing, in which every thread finishes |
| `VirtualLookup.FillChunk` | domain/consensus/consensus.go:1101-1115 | fills the answers of one chunk at their request positions and touches no other |
| `VirtualLookup.VirtualUtxoEntries` | domain/consensus/consensus.go:1065-1092 | answers exactly when the keys could be prepared and every chunk could read, in request order with values virtual held while the chunk was read, returns parents exactly when every chunk saw the same, and reports the first failure |
| `VirtualLookup.ParentsMeanOneSnapshot` | domain/consensus/consensus.go:1065-1115 | however virtual changes between chunks, also away and back, an answer that comes with parents is the lookup of one single virtual |
| `Shutdown.RunKeepsInv` | app/component_manager.go:134-190 | the order of the stop steps holds in every interleaving |
| `Shutdown.StopFollows` | app/component_manager.go:134-190 | what Stop has closed, by the number of its steps: the protocol from the second, the channel from the fourth, the workers from the sixth |
| `Shutdown.HandlersFollow` | app/rpc/manager.go:127-154 | a handler runs exactly from a start before Stop began until it is done, a router from one before the protocol closed |
| `Shutdown.EventsFollow` | app/component_manager.go:134-190 | the channel holds what was sent while it was open and not taken; a send on the closed channel is exactly a send after Stop's fourth step |
| `Shutdown.WorkersFollow` | app/component_manager.go:134-190 | the workers make a run of their own, in which Stop's sixth step begins the close |
| `Shutdown.ProcessFollows` | app/app.go:215-232 | the database is closed exactly by a Stop that took all seven steps and returned, and the process exits without closing it in every other way |
| `Shutdown.AnythingCanHappen` | app/app.go:215-232 | whoever runs can send and be done, new work can ask to start, and every bounded wait can time out, at any time |
| `Shutdown.DatabaseClosesLast` | app/component_manager.go:134-190 | in every interleaving, when the database closes no handler, router or event is running, both background workers have exited by steps of their own, the channel is closed and drained, and nothing starts afterwards; by the actions: every accepted start has its end, every event sent was taken and finished, and nothing was sent late |
| `Shutdown.StaysClosed` | app/app.go:215-232 | no action changes that |
| `Shutdown.NeverSendsOnClosedChannel` | app/component_manager.go:134-190 | no handler or router ever sends on the closed events channel |
| `Shutdown.NoAddAfterWait` | app/rpc/manager.go:127-154 | neither wait group grows once it is waited for |
| `Shutdown.FinishingStep` | app/component_manager.go:134-190 | whatever Stop waits for, a step that finishes it is enabled and lessens what is left to do |
| `Shutdown.CanCloseCleanly` | app/app.go:215-232 | from every reachable state of a stop that has not given up, a run that only finishes work already running, without new work or timeouts, closes the database |
| `Workers.RunKeepsInv` | domain/consensus/pruning_point_utxo_set_scanner.go:33-72 | the token, timer and close order invariants hold in every run |
| `Workers.NoRequestLost` | domain/consensus/pruning_point_utxo_set_scanner.go:26-72 | in every run a request after which no run started has its token in the channel, and a worker that has not exited can take it or is inside a run |
| `Workers.ScannerFollows` | domain/consensus/pruning_point_utxo_set_scanner.go:33-72 | by the actions alone: the scanner's token is there from a request until it is taken, it scans from then until the scan ends, and it is gone exactly after it saw the stop or a mismatch |
| `Workers.OwnerFollows` | domain/consensus/history_deletion_owner.go:34-60 | the same for the deletion owner, which its timer also starts |
| `Workers.UnservedFollow` | domain/consensus/pruning_point_utxo_set_scanner.go:26-31 | a request is unserved exactly until the next run starts |
| `Workers.RetryFollows` | domain/consensus/history_deletion_owner.go:46-59 | the timer is armed exactly from a failed deletion until it fires or another deletion ends, and failures are counted since the last deletion that did not fail |
| `Workers.CloseFollows` | domain/consensus/pruning_point_utxo_set_scanner.go:106-116 | how far Close got, by its steps |
| `Workers.AnyOutcome` | domain/consensus/history_deletion_owner.go:28-60 | requests come at any time and a run can end in each of its ways |
| `Workers.FailureArmsRetry` | domain/consensus/history_deletion_owner.go:34-60 | after k failed deletions in a row a retry is armed and can fire, with the delay of 60 seconds doubled k-1 times, at most 600 |
| `Workers.CloseWaitsForBoth` | domain/consensus/pruning_point_utxo_set_scanner.go:106-116 | close returns only when both workers have exited, and a job the scanner hands over always finds an owner not told to stop |
| `Workers.CloseCanProgress` | domain/consensus/history_deletion_owner.go:64-71 | a waiting close never waits for a worker that cannot move towards its exit |
| `PrefixSwap.ActionKeepsInv` | domain/domain.go:126-195 | every database write, crash, failure and operation keeps the invariant |
| `PrefixSwap.RunKeepsInv` | domain/domain.go:68-231 | so does every run with restarts |
| `PrefixSwap.DatabaseAlwaysSound` | domain/domain.go:68-231 | at every moment the inactive prefix is the flip of the active one and nothing was deleted from the active prefix's data since it was last unmarked; data outside the active prefix is covered by the inactive marker if and only if no write through a replaced consensus is left from after the deletion of its prefix began |
| `PrefixSwap.ActiveFollows` | domain/domain.go:126-195 | by the actions alone: the active marker is there from New's first success, and every commit swaps the prefix it names |
| `PrefixSwap.InactiveFollows` | domain/prefixmanager/prefix.go:52-118 | the inactive marker is there exactly from an InitStagingConsensus or commit until it is deleted, and names the other prefix |
| `PrefixSwap.DataFollows` | domain/domain.go:68-231 | a prefix holds exactly the keys written under it by the consensus it belonged to, served, staging, replaced or being built, and not deleted while it was inactive |
| `PrefixSwap.DamageFollows` | domain/prefixmanager/prefix.go:52-106 | which prefix has lost data and still has its marker |
| `PrefixSwap.ProcessFollows` | domain/domain.go:214-262 | the process runs from a start until a crash or an error inside New |
| `PrefixSwap.OperationFollows` | domain/domain.go:68-213 | an operation under the staging lock is in progress exactly from its beginning to its end, successful or not |
| `PrefixSwap.StagingFollows` | domain/domain.go:68-213 | a staging consensus is held exactly from being built until it is committed, deleted or lost in a crash |
| `PrefixSwap.AnythingCanFail` | domain/domain.go:68-262 | a crash can come at any time and every step of an operation can fail |
| `PrefixSwap.ActiveDataOnlyGrows` | domain/prefixmanager/prefix.go:52-108 | no single step deletes data of the active prefix |
| `PrefixSwap.StagingStartsEmpty` | domain/domain.go:86-123 | a staging consensus starts on exactly those late writes, so on an empty prefix if and only if there are none |
| `PrefixSwap.RestartCleansUp` | domain/domain.go:214-231 | whatever a crash left, a start that succeeds serves the active prefix with no inactive marker and nothing stored outside but late writes |
| `PrefixSwap.ServesTheActivePrefix` | domain/domain.go:126-195 | the served consensus is the one the database calls active, except between a commit's transaction and its pointer swap |
| `PrefixSwap.LateWriteIsUncovered` | domain/domain.go:174-193 | a run in which a call inside the previous consensus writes after its prefix was deleted: covered by no marker, kept over a crash, and what the next staging consensus starts on |
| `PrefixSwap.NoLateWritesNoLate` | domain/domain.go:174-193 | without such calls there are no late writes, from any state without them |
| `PrefixSwap.CommitSoundIff` | domain/domain.go:126-195 | a commit that finds an inactive marker serves an undamaged active prefix if and only if a staging consensus is held and no deletion of the inactive prefix had begun |
| `PrefixSwap.CommitWithoutStagingIsUnsound` | domain/domain.go:126-195 | a run that ends with a deleted prefix active and nothing served, through a commit without a staging consensus |
| `ChainRepair.WalkTip` | domain/consensus/consensus.go:2107-2138 | one tip's walk adds only blocks of leading runs, leaves the reset set closed under going on, and fails only on an unreadable record |
| `ChainRepair.Repair` | domain/consensus/consensus.go:2103-2149 | every block of some tip's maximal leading run becomes UTXO-pending-verification, every other block keeps its status, and the number of the former is returned; commits nothing exactly when a record it must read is unreadable |
| `ChainRepair.ClosedCoversRun` | domain/consensus/consensus.go:2107-2138 | stopping early at blocks reset before misses no block of any later run |
| `ChainRepair.TipOrderIrrelevant` | domain/consensus/consensus.go:2103-2149 | order and repetition of tips do not matter |
| `ChainRepair.SecondRunFindsNothing` | domain/consensus/consensus.go:2103-2149 | a second run resets nothing |
| `ChainRepair.RepairTouchesNothingElse` | domain/consensus/consensus.go:2168-2233 | only eligible blocks change status; no block with a stored multiset is touched |
| `ChainRepair.MissingMultisetsCovered` | domain/consensus/consensus.go:2168-2233 | if stored multisets reach down their runs, no UTXO-valid block of a tip's leading run is left without one |
| `ChainRepair.MissingMultisetsCoveredExactly` | domain/consensus/consensus.go:2168-2233 | for any tips, none is left lacking if and only if every block that lacks a multiset on a tip's UTXO-valid path is reached on some tip's path with no stored multiset before it |
| `ChainRepair.MissingMultisetsCoveredIff` | domain/consensus/consensus.go:2168-2233 | with a single tip, if and only if stored multisets reach down its runs |
| `TrustedWindow.AnchorIsNearest` | domain/consensus/consensus.go:1866-1892 | the anchor is the end of the path down the selected chain to its first block with a window |
| `TrustedWindow.TrustedWindowAnchor` | domain/consensus/consensus.go:1866-1892 | finds it, failing exactly when a read on the way fails |
| `TrustedWindow.SearchWindow` | domain/consensus/consensus.go:1841-1858 | fails exactly when a read before the block and before the first gap fails; otherwise finds the block's data, or not found exactly when the gapless part lacks it |
| `TrustedWindow.TrustedWindowGhostdagData` | domain/consensus/consensus.go:1816-1859 | never returns another block's data, and on contiguous duplicate-free windows gives the same answer for every index hint |
| `TrustedWindow.AnswerMeaning` | domain/consensus/consensus.go:1816-1892 | that answer is the block's data in the nearest window, and not found exactly when that window lacks the block |
| `PruningList.WalkDown` | cmd/utxoforensics/pruning_list_check.go:179-206 | collects exactly the chain above the pruning point and its headers' commitments without consecutive repeats, telling apart a chain that misses it and one that cannot be read |
| `PruningList.CommitmentsMembers` | cmd/utxoforensics/pruning_list_check.go:194-196 | dropping consecutive repeats loses no commitment and leaves none next to itself |
| `PruningList.FilterInPlace` | cmd/utxoforensics/pruning_list_check.go:207-212 | filtering into the slice's own backing array keeps exactly the wanted entries in order |
| `PruningList.KeptMembers` | cmd/utxoforensics/pruning_list_check.go:207-212 | membership in the filtered list |
| `PruningList.AboveExcludesPruningPoint` | cmd/utxoforensics/pruning_list_check.go:181-206 | the pruning point is never among the blocks above it, so the filter cannot drop it |
| `PruningList.AdoptedContains` | cmd/utxoforensics/pruning_list_check.go:207-218 | after dedup and filter the pruning point is found if and only if a header above commits to it |
| `PruningList.FindCommitment` | cmd/utxoforensics/pruning_list_check.go:243-265 | passes and errs exactly under the declarative conditions on the indexes it looks at, including the 64-bit wrap-around of an empty window |
| `PruningList.CheckPruningPointsInValidChain` | cmd/utxoforensics/pruning_list_check.go:165-266 | the gate passes if and only if its declarative condition holds, and errs if and only if something it gets to is unreadable |
| `PruningList.CheckPruningPointHeaderWalk` | cmd/utxoforensics/pruning_list_check.go:271-341 | passes exactly when the stored list is, index by index, what the headers expect down to genesis, and errs exactly on an unreadable record met before a disagreement |
| `PruningList.HeaderWalkPassMeans` | cmd/utxoforensics/pruning_list_check.go:271-341 | a pass means every stored point is committed to by a header above the pruning point or by a newer stored point, ending at genesis |
| `TxMass.EstimatedSize` | util/txmass/calculator.go:80-149 | the estimated size is the sum over the inputs' and outputs' sizes and the fixed fields, in 64 bits; 0 for a coinbase |
| `TxMass.CalculateTransactionMass` | util/txmass/calculator.go:34-60 | the mass is size, script bytes and signature operations, each summed over the transaction and multiplied by its rate, in 64 bits |
| `TxMass.UnsignedMass` | util/txmass/calculator.go:34-149 | with n unsigned inputs of one signature operation and one output with an L-byte script the mass is (112 + 52n + L) bytes, (2 + L) script bytes and n operations at their rates |
| `Sweep.WithCoin` | cmd/htnwallet/sweep.go:165-191 | the transaction under test after one more coin, with wrapped totals |
| `Sweep.Place` | cmd/htnwallet/sweep.go:165-217 | one coin either joins the current transaction or closes the last valid one and is carried over; every closed split is full |
| `Sweep.TestMass` | cmd/htnwallet/sweep.go:192-199 | the test on the transaction under test: its calculated mass plus 7000, in 64 bits, is below 100000 |
| `Sweep.CreateSplitTransactions` | cmd/htnwallet/sweep.go:140-225 | an ordered partition of the coins into splits whose calculated mass plus 7000, in 64 bits, is below 100000, each closed split failing that with one more coin; the two errors arise exactly for a negative fee and for an input that does not fit alone |
| `Sweep.ValueConservedModulo` | cmd/htnwallet/sweep.go:140-225 | outputs plus fees equal the coins up to 64-bit wrapping, always |
| `Sweep.ValueConserved` | cmd/htnwallet/sweep.go:140-225 | when each coin covers its fee and the total fits 64 bits, every output is exactly its inputs minus fees and nothing wraps |
| `Sweep.ClosedSplitsEqual` | util/txmass/calculator.go:34-60 | where the mass of all coins in one transaction does not wrap, all closed splits have the same number of inputs, and no split has more than the first |
| `Sweep.FewestTransactions` | cmd/htnwallet/sweep.go:140-225 | under the same bound, no way of distributing the coins over transactions that fit uses fewer transactions |
| `DepthBracket.Positions` | cmd/utxoforensics/main.go:3087-3090 | the position map holds the last entry of each hash |
| `DepthBracket.TightenExact` | cmd/utxoforensics/main.go:3121-3131 | one header cuts the bracket down to exactly the depths that explain it |
| `DepthBracket.DepthFromHeaders` | cmd/utxoforensics/main.go:3087-3143 | a depth is in the final bracket if and only if it explains every usable header; each counter is the number of indexes of its kind, and together they account for every index scanned |
| `DepthBracket.ExplainsMeansNewest` | cmd/utxoforensics/main.go:3115-3131 | with rising blue scores the two neighbours decide which point is the newest deep enough |
| `DepthBracket.EmptyBracketIsProof` | cmd/utxoforensics/main.go:3144-3160 | the bracket is empty if and only if no single depth prescribes every usable header's commitment |
| `Fingerprint.PartitioningInRange` | cmd/utxoforensics/partition_fingerprint.go:59-63 | every outpoint's partition is below 2^bits |
| `Fingerprint.PartitionIsPrefix` | cmd/utxoforensics/partition_fingerprint.go:59-63 | a partition holds the transaction ids whose first 24 bits lie in its own range of 2^(24-bits) |
| `Fingerprint.AmountIsSum` | cmd/utxoforensics/partition_fingerprint.go:113-116 | a partition's amount is the sum of its coins' amounts modulo 2^64 |
| `Fingerprint.CoinChangesOnePart` | cmd/utxoforensics/partition_fingerprint.go:101-117 | one more coin changes its own partition's count, amount and hash and no other |
| `Fingerprint.WriteSetFingerprint` | cmd/utxoforensics/partition_fingerprint.go:78-127 | for bits 4 to 20 and no others, every partition carries the count, wrapped amount and hash of exactly its coins, and the amounts sum to the total |
| `Fingerprint.AmountOfPart` | cmd/utxoforensics/partition_fingerprint.go:113-116 | a partition's amount depends on its coins alone: equal for any two sets with the same coins there, however they are listed |
| `Fingerprint.PartsMakeTheWhole` | cmd/utxoforensics/partition_fingerprint.go:87-127 | counts and hashes of the partitions add up to the number of entries and the hash of the whole set |
| `Fingerprint.CompareSetFingerprints` | cmd/utxoforensics/partition_fingerprint.go:151-199 | lists exactly the partitions whose hashes differ, in order, and refuses exactly other pruning points and other widths |
| `Fingerprint.PartsDifferIff` | cmd/utxoforensics/partition_fingerprint.go:179-190 | two sets' coins differ in a partition if and only if it contains an outpoint on which they disagree |
| `Fingerprint.DifferingPartitionsLocate` | cmd/utxoforensics/partition_fingerprint.go:179-190 | two sets' hashes differ in a partition if and only if it contains an outpoint on which the sets disagree; where they agree, so do counts and amounts |
| `Fingerprint.ComparisonLocates` | cmd/utxoforensics/partition_fingerprint.go:151-199 | what a comparison lists are exactly the partitions with such an outpoint, and it lists nothing if and only if the sets are equal |
| `HexCodec.TotalHexLength` | cmd/htnwallet/transactions_hex_encoding.go:13-17 | the allocated length is the length of the text |
| `HexCodec.EncodeAt` | cmd/htnwallet/transactions_hex_encoding.go:27-28 | writes the digits at the offset, within the buffer, keeping what is before |
| `HexCodec.EncodeTransactionsToHex` | cmd/htnwallet/transactions_hex_encoding.go:12-31 | fills the buffer exactly with the joined text, and panics exactly on the empty list |
| `HexCodec.DecodeTransactionsFromHex` | cmd/htnwallet/transactions_hex_encoding.go:33-46 | splits and decodes every piece, failing if one does |
| `HexCodec.DecodeEncoded` | cmd/htnwallet/transactions_hex_encoding.go:12-46 | decoding an encoded non-empty list gives the list back |
| `HexCodec.DecodedMeaning` | cmd/htnwallet/transactions_hex_encoding.go:12-46 | a text decodes to a list if and only if the list is non-empty and its encoding is the text in lower case: nothing else is accepted and no two lists share a text |

## Left out

- GHOSTDAG colouring, difficulty, block validation and the mempool, which decide what blocks and transactions the node accepts; message converters, addresses and amounts; networking, configuration, printing and logging.
- UtxoDerivation.IterateUtxoSetAtBlock: what the pending pruning point update does is an outcome, not modelled; a store's read error other than a missing record is treated as missing.
- ReplayCheck.Check: the sum over a script's bytes is any function, so that two scripts with one sum are not told apart, as in the code; the printed examples, the histogram of score differences and the search for a repaired set are left out.
- BaseCheck.Check: the chain is the part of the selected chain that is scanned; the report on an imported multiset and the histogram of DAA scores are left out; that a MuHash is injective is an assumption, so that equal hashes are equal multisets.
- MutableUtxoDiffs.MutableUtxoDiff.AddTransaction: the list of changed outpoints and the invalidation of immutable references are not modelled; nothing is said of the diff after a nil dereference, which ends the process.
- ChangeDelivery.IndexMatchesVirtual: the coins' bucket and outpoint are the key; the index's counts and circulating supply are not modelled, and handling one event is one step, as its database transaction is.
- ChangeDelivery.RestartExact: virtual's parents are numbered in the order virtual had them, so parents that were replaced do not come back; with a reset due the index after a restart can be anything, as ChangeDelivery.LostOverrideSurvives shows, and only there and after a failed reset is the history read off the index. A replaced consensus never has the parents of the one that replaced it, and a staging consensus announces nothing before it is committed.
- VirtualDrain.RunsOnlyOnResolvedVirtual: what resolving a chunk computes is an arbitrary subset of the pending blocks; fairness of the lock is not modelled.
- VirtualLookup.VirtualUtxoEntries: the database key order is any ordering of the positions; a caller's preferred entry is returned only where it equals the stored one, so it does not show in values.
- Shutdown.DatabaseClosesLast: only request handlers and router flows send events; the recovery goroutine after a disqualification, a staging consensus's own workers and the connection manager's loops are outside the model, and timeouts are a free choice between finished and expired.
- Workers.FailureArmsRetry: time is not modelled beyond the delays; the scanner's disk-space log limiter is left out.
- PrefixSwap.DatabaseAlwaysSound: runs in which CommitStagingConsensus is called without an open staging consensus are excluded, as its callers exclude them; PrefixSwap.CommitSoundIff says exactly what such a call does. What a late write does to a consensus that uses the prefix again is not described.
- TrustedWindow.TrustedWindowGhostdagData: independence of the hint needs windows that are contiguous from 0 and list a block once, which is how they are written.
- PruningList.CheckPruningPointsInValidChain: the third check of the same file, which asks the reachability tree, is not modelled.
- Sweep.CreateSplitTransactions: signatures and scripts are reduced to the lengths the mass calculator reads.
- TxMass.EstimatedSize: from transaction version 5 on a size is scaled by a floating-point factor, which is taken as the exact fraction.
- Fingerprint.WriteSetFingerprint: the header commitment field, the partition's printed name, the JSON file and the dump command are not modelled.
