# A two-level replicated key-value store, modelled and verified

A leader commits transactions to memory at once, a consensus library decides them later, and the other
nodes replay what was decided. This project models the three parts of that system and proves how they fit:

- **The datastore** (`Store`, `Refinement`, `Replaying`, `Histories`, `Overlay`, `Datastore`). A committed state keeps a replicated table, a
  history of pending diffs for each key, and two offsets. Its meaning is a pair: the sequence of live transactions
  and how many of them are replicated. `Refinement.Concretize` builds the one store that represents a pair, and every
  operation of the store is shown to be the plain operation on the pair. `Datastore` holds the objects themselves
  (`CommittedState`, `MutTx`), each method proved against the value-level operation of `Store`.
- **The node and the cluster** (`OmniPaxos`, `NodeSpec`, `Node`, `NodeInvariant`, `LossyReplay`, `NodeApply`,
  `NodeGuards`, `Cluster`, `Environment`, `Runs`, `Scenario`, `Handover`, `Hazards`, `Uncovered`, `AsWritten`). A node
  follows the library's view of the leader, rolls back, advances and replays. The consensus library is an environment: one
  decided log, and for each node a log, a decided count and a leader view, which change by atomic steps.
- **The formats** (`Bytes`, `Division`, `Varint`, `Codec`, `TxData`, `Serde`, `LogFile`, `Wire`). The base-128 varint is unsigned LEB128
  (section 7.6 of DWARF version 5); rows, lists, transactions and log entries nest it. `Serde` and `LogFile` hold the
  reading and writing methods; recovery of a log file torn at any byte is in `LogFile.TornLog`. `Wire` says what stands where
  in the bytes, down to those of the examples in the unit tests of src/datastore/tx_data/serde.rs.

`dafny verify dfyconfig.toml` checks everything.

## Decisions about the code

`NodeSpec.Variant` makes two points explicit where the code does something other than what it is meant to do. The
methods and the theorems take the variant as a parameter; the code as written is `Variant(false, false)`.

- `keepsRest`. The advance loop removes the head of a history before it looks at its offset
  (src/datastore/example_datastore.rs:139-151), so the first diff beyond the target is lost, while the comment above it
  asks for the latest offset at or below the target. As written it refines the meaning exactly when no diff is pending
  beyond the target (`Refinement.AdvanceAsWrittenRefines`), and what it loses is stated exactly: on the live transactions
  (`AdvanceAsWrittenDropsFirst`), at Memory level (`AdvanceAsWrittenInMemory`) and for good at Replicated level
  (`AsWrittenLosesUpdates`; `SecondWriteIsLost` is a concrete case). With `keepsRest` the full refinement holds;
  `Histories.StoreRefinesLog` states both forms over whole histories.
- `startsAtFirst`. With nothing applied a node passes offset 0 and the iterator starts at offset + 1
  (src/node/mod.rs:230, src/durability/omnipaxos_durability.rs:142). Positions are counted from 0 here, so the
  entry at position 0 is skipped (`OmniPaxos.IterationFromZeroSkipsFirst`, `NodeGuards.SkippedStartIsStuck`). The recorded
  run in test_outputs/test1.txt shows followers that do apply offset 0; starting at the first entry is taken to be the
  intended behaviour.

What the code needs from its surroundings is a guard of a step in `Cluster.Enabled`. Each guard is exact, one step at a time,
where said so: the step keeps the node invariant if and only if the guard holds.

- *Commit only when caught up.* `begin_mut_tx` checks only leadership. A commit keeps log position and offset equal exactly
  when the leader's store is level with its log (`NodeGuards.CommitGuardIsExact`); `Uncovered.EarlyCommitIsMisplaced` is a
  reachable leader that is not. Log positions need no other guard on what nodes do (`Cluster.LogPositionIsOffset`).
- *An advancing leader holds what it advances over.* Once the promotion flag is down, a leader advances without replaying. If
  an entry that it did not commit becomes decided then, it claims the entry without having it (`UncoveredLeaderSkips`).
  `Uncovered` has runs that get there: the flag is spent by one catch-up, or never raised because the node had noticed no
  leader before; the second needs no assumption on the form of the code.
- *An apply loses nothing.* A node must not skip a first entry it lacks, and with the loop as written a leader must not drop a
  diff pending beyond the decided count. A promoted leader that replays over pending transactions of its own keeps, in the loop
  as written, only the first of them (`LossyReplay.ReplayOverPending`); its guard is read off the log key by key: each lost
  write either wrote what was there or is followed by another that arrives (`LossIsInvisible`). The guard of an apply as a
  whole is exact in every form of the code (`ApplyGuardIsExact`), and so is that of a promotion (`UpdateGuardIsExact`).
  `AsWritten` has a reachable cluster for each of the three, with the exact condition under which the table goes wrong.
- *Leader views are noticed.* A node that has not noticed that it was deposed may lead again only if its log still has what its
  store has pending, and a node that has not noticed that it leads may lose the leadership only with nothing pending. The guard
  is exact (`ViewGuardIsExact`). Beyond it, whatever is pending is replicated in place of the decided transactions
  (`ReturnReplicatesOwn`, `LeavingReplicatesOwn`). `Hazards` has a run for each half in which one step outside the guard ends in
  a replicated table that is not the decided one, in every form of the code; in the second, the node never learns that it led.
- *Replaced logs.* Decided entries stay, and a node that the library calls leader keeps in its log what its store has
  pending; exact for entries that have their place (`SyncGuardIsExact`).
- *An apply follows the check for a new leader.* The runner calls the two in that order in one task
  (src/node/mod.rs:75-77), so no deposition is unnoticed when an apply runs.
- *The library.* Decided prefixes agree; a log is replaced only by entries that some node has, or that are decided, at the same
  positions; a leader view, once there is one, never becomes empty again.

`Environment` does with fewer guards. Client commits are still caught up, and views and replaced logs still meet the guards
above. If, besides, the library makes a node leader only when everything in its log is decided there and, unless the log
is empty, only after the node has noticed some leader; brings an unnoticed deposed node back only with its whole log in its
store; and extends a leader's log only by the leader's own commits, then the intended code is safe in every run
(`Environment.SafeInItsSurroundings`), with nothing asked of applies and leader checks but their order in the runner.
`Handover.HandoverIsSurrounded` is such a run, in which leadership is lost with a transaction pending and won back.

A panic stops a node with its state as the panic finds it. On every node that keeps the invariant, an apply
and a leader check panic in one case only: a promoted leader with an empty datastore that knows of a decided entry asks it for
its current offset (src/node/mod.rs:215), with the promotion flag already raised (src/node/mod.rs:178-179);
`ApplyPanicsExactlyWhenEmpty`, `NoticingPanicsExactlyWhenEmpty`, and a run in `AsWritten.PromotedTooEarlyPanics`.

Further points. `get_durable_tx_offset_optional` is described as an index but returns the offset inside the last decided entry;
that the two agree wherever commits are caught up is a theorem (`Cluster.LogPositionIsOffset`). A shift of 32 bits or more in
the varint reader, which panics in a debug build, is the separate outcome `Overflow`. Lengths are cut to 32 bits by the
writers, as in the code, which is why the round trips hold exactly for values that fit. The hash map of a transaction is walked
in an arbitrary order.

## Model

| member | source | states |
|---|---|---|
| Varint.VarintRoundTrip | src/datastore/tx_data/serde.rs:10-31 | every 32-bit value is read back, and exactly the bytes after it are left |
| Varint.VarintIsMinimal | src/datastore/tx_data/serde.rs:10-31 | one to five bytes, and no input from which the reader gets the same value is consumed to a shorter end |
| Varint.VarintBytes | src/datastore/tx_data/serde.rs:10-16 | byte i carries the i-th base-128 digit from the low end, and its high bit says that more bytes follow |
| Varint.SixthByteOverflows | src/datastore/tx_data/serde.rs:19-31 | five bytes that all say more follow end in the end of the input, or, if there is a sixth, in the shift overflow |
| Varint.HighBitsAreLost | src/datastore/tx_data/serde.rs:19-31 | a value of 2^32 in five bytes is read as 0 |
| Varint.WriteVarint | src/datastore/tx_data/serde.rs:10-16 | the writing loop appends the encoding of the value and ends |
| Varint.ReadVarint | src/datastore/tx_data/serde.rs:19-31 | the reading loop returns what the decoder gives, leaves its remainder, and ends on every input |
| Codec.ListReadsBack | src/datastore/tx_data/serde.rs:58-79 | a counted list of any codec is read back exactly when its length and its elements fit |
| Codec.StrictPrefixIsTorn | src/datastore/tx_data/serde.rs:50-55 | no strict prefix of an encoding decodes: decoding it always meets the end of the input |
| Codec.ConcatenationInjective | src/datastore/tx_data/serde.rs:62-64 | equal concatenations of encodings come from equal lists |
| TxData.RowCodec | src/datastore/tx_data/serde.rs:44-55 | a row is read back exactly when shorter than 2^32 bytes; later bytes change no finished reading |
| TxData.RowListCodec | src/datastore/tx_data/serde.rs:58-103 | the same two laws for insert lists and delete lists |
| TxData.TxCodec | src/datastore/tx_data/serde.rs:105-158 | the same two laws for whole transactions with their three lists |
| TxData.TxIsPrefixFree | src/datastore/tx_data/serde.rs:105-158 | no encoded transaction is a prefix of another's encoding, and no strict prefix decodes |
| Serde.SerializeTxData | src/datastore/tx_data/serde.rs:107-127 | the serializer appends exactly the encoding |
| Serde.DeserializeTxData | src/datastore/tx_data/serde.rs:130-157 | the deserializer returns the decoder's outcome and stands at its remainder, or at the end of the input when it is torn |
| Wire.InsertsThenDeletes | src/datastore/tx_data/serde.rs:105-158 | inserts stand first on the wire and deletes next, and a reader of lists takes them off in that order; the truncs are left |
| Wire.TableIdThenRows | src/datastore/tx_data/serde.rs:58-103 | in a list the table id stands first, then the counted rows |
| Wire.EmptyTx | src/datastore/tx_data/serde.rs:165-185 | nothing is written as three zero bytes |
| Wire.OneInsertList | src/datastore/tx_data/serde.rs:187-205 | the bytes of one empty insert list |
| Wire.TwoInsertLists | src/datastore/tx_data/serde.rs:207-231 | the bytes of two empty insert lists |
| Wire.TwoInsertedRows | src/datastore/tx_data/serde.rs:233-257 | the bytes of two insert lists with a row each |
| Wire.DeletesAndTruncs | src/datastore/tx_data/serde.rs:113-125 | the bytes of a delete list and two truncs, one id above 127 |
| Wire.KeyThenValue | src/datastore/example_datastore.rs:31-61 | in a row of the datastore the key stands first, then the value |
| Wire.SetOnTheWire | src/datastore/example_datastore.rs:243-279 | the bytes of a commit that sets one short key |
| Wire.DeleteOnTheWire | src/datastore/example_datastore.rs:243-279 | the data and the bytes of a commit that deletes one key: its row is the bare key, in table 0 |
| Wire.StoppingRows | src/datastore/example_datastore.rs:337-346 | a row cut anywhere is an error, an overlong length a panic, a good row is set, and what came before stays |
| Wire.StoppingLists | src/datastore/example_datastore.rs:337-357 | a list of a foreign table is a panic, among inserts or deletes; deletes run after inserts |
| Wire.OverlongEntryPanics | src/durability/example_durability.rs:148-153 | a log entry with an overlong count ends the scan in a panic |
| LogFile.EntryCodec | src/durability/example_durability.rs:21-34 | a log entry is read back, remainder untouched, exactly when its lengths fit |
| LogFile.EntryBytes | src/durability/example_durability.rs:21-25 | an entry is eight offset bytes, the lowest first, and then the transaction |
| LogFile.LogIsInjective | src/durability/example_durability.rs:21-34 | two logs of fitting entries have the same bytes if and only if they hold the same entries |
| LogFile.TornLog | src/durability/example_durability.rs:140-154 | cut at any byte, a log yields exactly the entries wholly before the cut, in order, then stops without a panic |
| LogFile.WholeEntriesIsLargest | src/durability/example_durability.rs:140-154 | the number of those entries is the largest whose encodings end at or before the cut |
| LogFile.LogIterator.Next | src/durability/example_durability.rs:148-153 | each call yields the next scanned entry; after it has yielded none the file is at its end, so it stays exhausted |
| LogFile.LogIterator.Last | src/durability/example_durability.rs:131-135 | running the iterator out gives the offset of the last scanned entry, or 0 if nothing is scanned |
| LogFile.ExampleDurabilityLayer.FileWrite | src/durability/example_durability.rs:77-92 | after each write the file holds one more entry and the cached offset is that of the last |
| LogFile.ExampleDurabilityLayer.GetDurableTxOffset | src/durability/example_durability.rs:125-138 | the cached offset if there is one, else that of the last entry a scan finds or 0 if it finds none, which is then cached |
| LogFile.RecoverDurableOffset | src/durability/example_durability.rs:125-138 | on a torn file the fallback answers with the offset of the last entry wholly written, or 0 if there is none |
| Datastore.SerializeExampleRow | src/datastore/example_datastore.rs:31-40 | a row is written as its two length-prefixed strings |
| Datastore.DeserializeExampleRow | src/datastore/example_datastore.rs:43-61 | the row reader's outcome on any bytes |
| Datastore.CommittedState.Get | src/datastore/example_datastore.rs:114-128 | the latest pending diff at Memory level, else the replicated value |
| Datastore.CommittedState.PopHistory | src/datastore/example_datastore.rs:135-152 | the inner loop pops one history and replicates its diffs; no other key changes |
| Datastore.CommittedState.AdvanceReplicatedDurabilityOffset | src/datastore/example_datastore.rs:130-158 | over keys in any order, the whole new state of an advance, in both forms of the loop |
| Datastore.CommittedState.RollbackToReplicatedDurabilityOffset | src/datastore/example_datastore.rs:162-168 | the whole new state of a rollback |
| Datastore.CommittedState.ReplayTransaction | src/datastore/example_datastore.rs:316-359 | the whole new state and outcome of a replay, also when rejected or when a row does not decode |
| Datastore.CommittedState.GetCurOffset | src/datastore/example_datastore.rs:367-374 | the offset before the next one, if any transaction was committed |
| Datastore.MutTx.Get | src/datastore/example_datastore.rs:188-195 | reads through the transaction's own diff |
| Datastore.MutTx.Set | src/datastore/example_datastore.rs:197-199 | the key's diff becomes an insert of the value |
| Datastore.MutTx.Delete | src/datastore/example_datastore.rs:201-209 | marks the key deleted and returns the value seen before |
| Datastore.CommitMutTx | src/datastore/example_datastore.rs:238-285 | appends every diff at the next offset, and the returned rows are those of the transaction in some order of its hash map |
| Overlay.TransactionActsOnACopy | src/datastore/example_datastore.rs:187-210 | any gets, sets and deletes in a transaction answer as on a copy of the Memory view; commit makes that copy the Memory view and leaves the Replicated view |
| Refinement.Views | src/datastore/example_datastore.rs:113-128 | the Memory view is the fold of all live transactions, the Replicated view that of the replicated prefix |
| Refinement.CommitRefines | src/datastore/example_datastore.rs:238-285 | a commit appends one live transaction |
| Refinement.RollbackRefines | src/datastore/example_datastore.rs:160-168 | a rollback cuts the live transactions to the replicated prefix |
| Refinement.PopIsOneCut | src/datastore/example_datastore.rs:135-152 | on an ascending history the popping loop is one cut where a binary search would put it |
| Refinement.AdvanceOnKey | src/datastore/example_datastore.rs:134-155 | exact effect on one key: its value in the fold up to the target, and all later diffs, but the first in the loop as written |
| Refinement.AdvanceRefines | src/datastore/example_datastore.rs:130-158 | the intended advance only moves the replicated mark |
| Refinement.AdvanceAsWrittenRefines | src/datastore/example_datastore.rs:134-155 | the loop as written does so if and only if no diff is pending beyond the target |
| Refinement.AdvanceAsWrittenDropsFirst | src/datastore/example_datastore.rs:134-155 | in general the loop as written replicates up to the target and strikes the first later diff of every key out of the live transactions |
| Refinement.AdvanceAsWrittenInMemory | src/datastore/example_datastore.rs:139-151 | on every well-formed store the loop as written changes a key at Memory level only if it has exactly one diff beyond the target, and then to the latest one before or the replicated value |
| Refinement.AsWrittenInMemoryOfLog | src/datastore/example_datastore.rs:139-151 | on a store that represents live transactions, that key falls back to its value in the fold up to the target |
| Refinement.AsWrittenLosesUpdates | src/datastore/example_datastore.rs:139-151 | a later advance of the loop as written misses a key's update exactly when it was the only diff between the two targets |
| Refinement.SecondWriteIsLost | src/datastore/example_datastore.rs:139-151 | concrete case: of two writes of a key made durable in turn, the first stays replicated as written, the second as intended |
| Refinement.AdvancePastTheEnd | src/datastore/example_datastore.rs:130-158 | a target at or past the next offset replicates everything pending and sets an offset that is not held |
| Refinement.AdvancesCompose | src/datastore/example_datastore.rs:130-158 | two intended advances are one to the later target, and the Memory view never changes |
| Replaying.ReplayRefines | src/datastore/example_datastore.rs:316-359 | a replay is accepted exactly when nothing is ahead of the replicated mark, and then appends and replicates at once as much as is readable |
| Replaying.ReplayOrOwnDiffAgree | src/node/mod.rs:231-243 | in both forms of the advance, replay then advance leaves the same replicated table and offset whether the replay succeeded or met the node's own pending diff |
| Replaying.CommittedDataCarriesTx | src/datastore/example_datastore.rs:243-279 | in every order of the hash map, the data a commit returns decodes and its effect is the transaction |
| Histories.StoreRefinesLog | src/datastore/example_datastore.rs:113-359 | after any commits, in-range advances, rollbacks and replays of any data the store represents the abstract pair; as written, each advance also strikes out the first later diff of each key |
| Histories.ReachableIsWellFormed | src/datastore/example_datastore.rs:106-168 | in both forms of the advance, with any replays, every store reached by advances to existing offsets has non-empty, strictly ascending histories between its two offsets, and none when it accepts a replay |
| Histories.AdvanceKeepsWellFormed | src/datastore/example_datastore.rs:130-158 | an advance, in either form, keeps that invariant if and only if the store has the target offset |
| Histories.ReplicasConverge | src/datastore/example_datastore.rs:406-430 | replaying on a fresh store the data of any number of commits gives the store of committing them and advancing to the last |
| OmniPaxos.IterationIsGapFree | src/durability/omnipaxos_durability.rs:132-160 | from an applied offset the iterator yields exactly the decided entries after it; successive calls concatenate without gap or repeat |
| OmniPaxos.IterationFromZeroSkipsFirst | src/durability/omnipaxos_durability.rs:142-149 | asked from offset 0 it skips the first entry, and is complete only when nothing is decided |
| OmniPaxos.IterationFromAnywhere | src/durability/omnipaxos_durability.rs:132-160 | from any offset the iterator yields the decided entries after it, nothing while none is decided, or panics on a log too short |
| OmniPaxos.DurableOffsetIsInTheEntry | src/durability/omnipaxos_durability.rs:115-124 | the durable offset is the one inside the last decided entry, whatever its position |
| OmniPaxos.OmniPaxosDurability.IterStartingFromOffset | src/durability/omnipaxos_durability.rs:132-160 | the two loops give the value-level iteration, or the panic of an empty log |
| OmniPaxos.OmniPaxosDurability.GetDurableTxOffsetOptional | src/durability/omnipaxos_durability.rs:115-124 | the offset inside the last decided entry, none if no entry is decided |
| OmniPaxos.OmniPaxosDurability.AppendTx | src/durability/omnipaxos_durability.rs:163-170 | the entry goes to the end of the log |
| Node.Node.UpdateLeader | src/node/mod.rs:156-188 | the whole new node state on a leader change, or its panic |
| Node.Node.ReplayEntries | src/node/mod.rs:231-243 | the replay loop over any entries, rejected and failing ones included |
| Node.Node.ApplyReplicatedTxns | src/node/mod.rs:200-247 | the whole new node state of an apply in each of its branches, or its panic |
| Node.Node.CommitMutTx | src/node/mod.rs:261-292 | commits and appends under one offset exactly when leader, and changes nothing otherwise |
| NodeInvariant.ApplyEntriesFollow | src/node/mod.rs:231-243 | with the intended advance, or with nothing pending beyond the first entry, the replay loop on a store with any live transactions replicates those in place, replays only the entries after their end, and ends replicated exactly up to the last entry |
| LossyReplay.ReplayOverPending | src/node/mod.rs:231-243 | as written, over pending transactions the loop applies the first and strikes out of each key's later diffs as many as there are entries; so all the others up to the last entry are lost |
| LossyReplay.LossyIsConcrete | src/node/mod.rs:231-243 | that makes no difference if and only if no diff is pending beyond the last entry and, for every key that a lost transaction writes and no later one does, the lost value is the one the key already had |
| LossyReplay.LossIsHarmless | src/node/mod.rs:231-243 | leaving transactions out of the middle of a history gives the same table if and only if that key-by-key condition holds |
| NodeApply.ApplyAsLeader | src/node/mod.rs:215-222 | an advancing leader's store is what it held, replicated to the decided count; the flag is down |
| NodeApply.FlaggedLeaderAdvances | src/node/mod.rs:215-222 | in every form of the code a leader with its promotion flag up whose store ends at the decided count advances: all it holds is replicated, nothing is read, the flag is down |
| NodeApply.ApplyByReplay | src/node/mod.rs:223-246 | under its guard a replaying node's store is that of its log as far as it held or replayed it, replicated to the decided count; the flag is down |
| NodeApply.ApplyKeepsNode | src/node/mod.rs:200-247 | under its guard an apply keeps the node invariant, never goes back, catches up fully unless the reading skips the first entry, lowers the promotion flag unless it returns early, and panics only on an empty datastore |
| NodeApply.ApplyPanicsExactlyWhenEmpty | src/node/mod.rs:206-247 | in any state that keeps the invariant an apply panics exactly on a flagged leader with an empty datastore and a decided entry |
| NodeApply.AnyEntryApplies | src/node/mod.rs:231-243 | on any entry, readable or not, a node with nothing pending panics if the replay does, and otherwise goes on with as much of it as is readable, its offsets and count moved |
| NodeApply.RefusedNeverPanics | src/node/mod.rs:231-243 | an entry met by pending diffs is refused unread and counted, and never panics |
| NodeApply.NewsIsAnotherOffset | src/node/mod.rs:201-213 | an apply goes on exactly if the last decided entry carries another offset than the one applied last |
| NodeGuards.ApplyGuardIsExact | src/node/mod.rs:206-247 | in every form of the code an apply keeps the invariant if and only if its guard holds |
| NodeGuards.UncoveredLeaderSkips | src/node/mod.rs:215-222 | an advancing leader that lacks decided entries claims them while its table stops at what it held |
| NodeGuards.SkippedStartIsStuck | src/node/mod.rs:226-243 | started behind an entry it lacks, a node claims every decided entry, has the table of one transaction, and refuses replays from then on |
| NodeGuards.UpdateLeaderKeepsNode | src/node/mod.rs:152-188 | noticing a leader change keeps the invariant, leaves no deposition unnoticed, and panics exactly on a promotion over an empty datastore with a decided entry |
| NodeGuards.NoticingPanicsExactlyWhenEmpty | src/node/mod.rs:156-188 | in any state that keeps the invariant, guard or not, a leader check panics exactly then |
| NodeGuards.PromotionCatchesUp | src/node/mod.rs:176-188 | a promoted node with nothing pending has at once the store of all decided entries; its flag stays up only if there was none to catch up with |
| NodeGuards.NoLeaderNothingNoticed | src/node/mod.rs:156-188 | while the library names no leader a leader check changes nothing |
| NodeGuards.UpdateGuardIsExact | src/node/mod.rs:176-179 | in every form of the code noticing a promotion keeps the invariant if and only if its guard holds |
| NodeGuards.DeposedRollsBack | src/node/mod.rs:169-188 | noticing its deposition a leader rolls its store back and follows, and nothing else of it changes, the promotion flag included |
| NodeGuards.DeposedLeaderConverges | src/node/mod.rs:169-243 | after rollback and apply a deposed leader, with any pending suffix, has the store of a fresh node that replays the decided log, if and only if its reading skips no entry |
| NodeGuards.ViewGuardIsExact | src/node/mod.rs:157-188 | a change of view keeps the invariant if and only if an unnoticed deposed node returns over its own pending entries, and an unnoticed leader leaves with none |
| NodeGuards.CommitGuardIsExact | src/node/mod.rs:273-292 | a leader's commit keeps the invariant if and only if its store is level with its log |
| NodeGuards.SyncGuardIsExact | src/node/mod.rs:200-247 | a replaced log keeps the invariant if and only if decided entries stay and a leader's log keeps what its store has pending |
| Cluster.StepKeepsCluster | src/node/mod.rs:65-96 | every enabled step keeps the cluster invariant; the decided log only grows and no application is undone |
| Cluster.Safety | src/node/mod.rs:156-247 | in every run, over any nodes, each replicated table is the fold of the decided entries up to the last applied |
| Cluster.Agreement | src/node/mod.rs:197-247 | what any node applied at one time and any node later are prefixes of one history; equally many entries mean equal tables |
| Cluster.LogPositionIsOffset | src/node/mod.rs:273-292 | in every run whose commits are caught up and whose logs are replaced by entries at their places, whatever views, applies and leader checks do, the entry at position p of every log carries offset p |
| Cluster.WhatClientsRead | src/node/mod.rs:249-258 | on every node in every run: the decided prefix it applied at Replicated level, that prefix and what it has pending at Memory level, and unless it is unknowingly deposed, what its log says |
| Environment.SurroundedStep | src/node/mod.rs:65-96 | in the surroundings described above every step meets its guard, and the conditions under which the next ones do are kept |
| Environment.SafeInItsSurroundings | src/node/mod.rs:65-247 | in every such run, from fresh nodes, the intended code keeps cluster safety and log positions |
| Handover.HandoverIsSurrounded | src/node/mod.rs:156-247 | in those surroundings a node leads, is deposed with a transaction pending, rolls back, catches up, leads again, writes and replicates |
| Scenario.LostLeadershipIsARun | src/node/mod.rs:156-188 | a run of enabled steps with two leaders, a conflicting decision and a deposition |
| Scenario.NoticedInTime | src/node/mod.rs:169-173 | at its end the deposed node drops its own transaction, and replays the decided one if it reads from the first entry |
| Hazards.NoticedTooLate | src/node/mod.rs:157-188 | at the end of that run the view may return if and only if both transactions are the same; else the next apply replicates the node's own |
| Hazards.NoticedTooLateIsUnsafe | src/node/mod.rs:215-222 | with two different writes that run ends in a replicated table that is not the decided one |
| Hazards.ReturnReplicatesOwn | src/node/mod.rs:200-247 | a node deposed with any transactions pending, leading again before it noticed, has them in its table in place of the decided ones after its next apply, and claims every decided entry |
| Hazards.LeavingReplicatesOwn | src/node/mod.rs:156-247 | a leader that never noticed it led rolls nothing back when the view moves on, and its next apply does the same |
| Hazards.NeverNoticed | src/node/mod.rs:157-188 | two leaders write any transactions, and the view leaves the one that never noticed it led: all later steps but the apply are enabled, the apply under a stated condition, and the table is wrong exactly if its own transactions give another |
| Hazards.NeverNoticedIsUnsafe | src/node/mod.rs:231-243 | with two different writes that run is unsafe in every form of the code, its apply enabled |
| Uncovered.EarlyCommitIsMisplaced | src/node/mod.rs:273-292 | reachable leaders, promoted or never flagged, accept a commit whose offset is not its log position |
| Uncovered.EarlyCommitIsDurable | src/durability/omnipaxos_durability.rs:115-124 | once decided, that entry makes its misplaced offset the durable one |
| Uncovered.UncoveredLeader | src/node/mod.rs:215-246 | reachable leaders, their flag spent or never raised, claim all decided entries; the table is wrong exactly if the transactions they lack matter |
| Uncovered.UncoveredLeaderIsUnsafe | src/node/mod.rs:215-246 | with a last write that differs both are unsafe, the unflagged one in every form of the code |
| AsWritten.AdvanceDropsUpdates | src/node/mod.rs:215-222 | as written, a leader that applies while more is pending ends, by enabled steps, in a wrong table exactly if some key with one single later diff shows another value there |
| AsWritten.SecondWriteNeverArrives | src/datastore/example_datastore.rs:139-151 | two different writes of a key, decided one after the other, are enough |
| AsWritten.FlaggedLeaderLosesItsOwn | src/node/mod.rs:178-246 | as written, a reachable leader with its flag still up replays its own entries and keeps one; when it may apply and when its table is wrong, exactly |
| AsWritten.FlaggedLeaderIsUnsafe | src/node/mod.rs:178-246 | two different writes make that table wrong |
| AsWritten.FlaggedLeaderLevel | src/node/mod.rs:215-222 | once all its entries are decided that leader advances and has the decided table, in every form of the code |
| AsWritten.FollowerSkipsFirst | src/node/mod.rs:226-243 | as written, a reachable follower that first applies two or more entries has the table of the second alone and refuses every later replay |
| AsWritten.FollowerSkipsFirstIsUnsafe | src/node/mod.rs:226-243 | with two different writes that table is wrong |
| AsWritten.PromotedTooEarlyPanics | src/node/mod.rs:176-215 | a reachable follower, promoted before its first apply, panics in its leader check with the flag up and nothing noticed |

## Left out

- OmniPaxos itself (ballots, election, accept and decide messages): a library; only the assumptions named above stand for it.
- Tasks, channels, timers, locks and message sending: every operation is one atomic step, in any order the guards admit; nothing is said about progress or time.
- Node set-up, disconnecting and reconnecting nodes, `src/utils.rs`, `src/main.rs`: test harness and wiring.
- LogFile.ExampleDurabilityLayer.FileWrite: covers one finished write; opening, flushing, the spawned senders and the delay of the offset's own task are left out, so appends are in order.
- `get_durable_tx_offset` of the OmniPaxos layer and `to_string`: used for printing only.
- Text encoding: strings are byte sequences, so the outcome of an invalid UTF-8 key does not exist here.
- Datastore.CommittedState.ReplayTransaction: the foreign-table assertion and a shift overflow in a row are one outcome, Panicked.
- `truncs`: carried by the codec, applied by nothing, as in the code.
- Offsets are unbounded: the wrap-around of a 64-bit offset after 2^64 commits is not modelled; log entries on file carry 64-bit offsets.
- Varint.ReadVarint: wrap-around of an oversized shift in a release build is not modelled; it is reported as an overflow.
- Allocation by announced length (`with_capacity`, `vec![0; len]`): a reader that would run out of memory is not modelled.
- Dropping a mutable transaction, releasing a read transaction and the offset getters that only read a field: nothing to state.
