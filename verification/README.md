# Raiden, verified models

A model in Dafny of the parts of a Raiden node where money or history could be lost, and proofs about
all of its runs:

- **The netting channel** (`raiden/transfer/channel.py`). Two end states, each with a balance proof, an
  ordered list of encoded locks, three lock maps, pending withdraws and a nonce. `ChannelState` and
  `ChannelValidation` hold what the source only computes, `ChannelTransitions` says what each operation
  does, `ChannelRuns` strings operations into runs, and `NettingChannel` is the object that is updated in
  place. `LockAccounting`, `AccountedRuns`, `Solvency`, `Sanity`, `Nonces`, `Lifecycle`, `Authenticity`,
  `Settlement`, `WithdrawOrder` and `ReceivedAssertions` prove what every step and every run keeps, and
  `FailingRuns` has runs that keep less. `Ledgers`, `Agreement` and `WithdrawHandshake` put two channels
  at the ends of two queues.
- **The write-ahead log** (`raiden/storage`). `StateLog` is what can be read back from the tables,
  `LogRuns` a node that logs, snapshots and restarts, `WriteAheadLog` the objects that do it, and
  `ChannelLog` a netting channel kept in such a log.
- **Following the chain** (`raiden/blockchain`, the loop in `raiden/raiden_service.py`). `BlockSync` is
  about ranges of blocks, `FilterDiscovery` and `DiscoveryOrder` about the events that the filters return
  for one range. `ConfirmedChain` and `LogOrder` are about the events of all ranges together, with
  filters that timeouts and restarts change, and `ChainLog` is the loop on the write-ahead log.
- **Smaller cores.** `LockCodec`, `LockMaps`, `StableSort` and `EventOrder` are the foundations;
  `MessageOrder`, `LockReclassification` and `DependencyOrder` stand on their own.

Conventions. Hashes and addresses are numbers and stand for their big-endian bytes. Keccak is a field of
the channel and may be any function; a signature is represented by the address recovered from it.
`ChannelRuns.Allowed` collects the assertions of the handlers. Most of them are about the caller. Two can
be failed by a message from the partner: `NettingChannel.Netting.Take` then reports `Raised`, and
`ReceivedAssertions` says exactly when that can happen. What the contracts guarantee about the events on
the chain is `ConfirmedChain.WellFormed`; the client and the database may fail at any point. Amounts are
unbounded integers, and the 256-bit limits the source tests are written out.

Where the code does not do all that its comments or the design suggest, the model follows the code, a
lemma exhibits an input, and another one says exactly when the property holds:

- `compute_locks_with` refuses only an identical encoding, so reusing a pending secrethash breaks the
  lock accounting; so does expiring a lock that is registered on-chain (`FailingRuns.ReuseFails`,
  `FailingRuns.ExpiringRegisteredFails`, `AccountedRuns.StepAccounted`).
- A withdraw is checked against the balance, not against what is left of it after the pending locks
  (`FailingRuns.WithdrawOverdraws`, `Solvency.StepSolvent`).
- A refused withdraw request may already have been recorded (`FailingRuns.RefusedButRecorded`,
  `Nonces.RefusedRequest`), and the answer to a cooperative settlement is queued twice under one nonce
  (`Nonces.StepSendsSequential`).
- A cooperative settlement in which this node has nothing left can make `sanity_check` fail
  (`Sanity.NothingAnnouncedFails`, `Sanity.StepSane`, `Sanity.RunSane`).
- A valid withdraw message can fail an assertion, when money has moved during a settlement or both sides
  have started one (`ReceivedAssertions.DepositThenRequestRaises`,
  `ReceivedAssertions.TwoSettlementsRaise`, `ReceivedAssertions.RequestsSafeExactly`,
  `ReceivedAssertions.ConfirmationsSafeExactly`).
- Lowering the reveal timeout breaks the order that the early exit of the expiry loop relies on
  (`WithdrawOrder.LoweredTimeoutBreaksOrder`, `WithdrawOrder.EarlyExit`,
  `WithdrawOrder.StepOrderedExactly`).
- Recovery applies the last change of the snapshot again (`StateLog.RestoreExact`). For a channel that
  matters exactly if that change starts a cooperative settlement of nothing
  (`ChannelLog.SettlementRecoversWrongly`, `ChannelLog.SettledExactly`). The counter of changes counts
  the change again in any case (`LogRuns.RestartCountsTwice`).
- The log publishes the clone it handed out, whatever the transition returned
  (`LogRuns.PublishedExactly`).
- A timeout while new contracts are being discovered leaves them in the filter, and the repeated batch
  returns their events twice (`DiscoveryOrder.RepeatedRoundDuplicates`,
  `DiscoveryOrder.DiscoverOnceExactly`). So the log holds events twice
  (`ConfirmedChain.TimeoutThenTwice`), exactly when a committed batch was asked with a filter that was
  ahead of the log (`ConfirmedChain.HandedExactly`).
- The events of a batch are not in the order of their blocks (`LogOrder.BlockOrderFails`,
  `LogOrder.InBlockOrderExactly`).
- A secret that is revealed on-chain in the batch that finds the first channel is missed
  (`ConfirmedChain.SecretsExactly`).
- Withdraw messages overtake the envelopes of their batch (`MessageOrder.RequestOvertakesTransfer`,
  `MessageOrder.InOrderExactly`).

## Model

| member | source | states |
|---|---|---|
| LockCodec.Decode | raiden/messages/transfers.py:145-151 | succeeds exactly on strings of 96 bytes |
| LockCodec.DecodeEncode | raiden/messages/transfers.py:132-151 | decoding an encoded lock gives the lock back |
| LockCodec.EncodeDecode | raiden/messages/transfers.py:132-151 | every 96-byte string is the encoding of what it decodes to |
| LockCodec.EncodeInjective | raiden/messages/transfers.py:132-138 | two locks with the same encoding are the same lock |
| LockCodec.SplitJoin | raiden/transfer/channel.py:1415-1419 | the bytes hashed for a locksroot can be split back into the very list of locks |
| LockCodec.JoinSplit | raiden/transfer/channel.py:1415-1419 | a string splits into locks exactly when its length is a multiple of 96, and joins back to itself |
| LockCodec.JoinInjective | raiden/transfer/channel.py:1415-1419 | two lists of encoded locks that hash the same string are the same list |
| LockCodec.UnpackPack | raiden/messages/transfers.py:411-434 | all fields can be read back from the packed bytes |
| LockCodec.PackInjective | raiden/messages/transfers.py:411-434 | different transfers have different packed bytes |
| LockMaps.SumRemove | raiden/transfer/channel.py:1139-1149 | the sum over a lock map does not depend on the order: any lock can be taken out first |
| LockMaps.RemoveFirstDistinct | raiden/transfer/channel.py:1403-1412 | removing an encoding from a list without repetitions removes exactly that one |
| LockAccounting.FreshEncoding | raiden/transfer/channel.py:1391-1400 | a lock with a fresh secrethash is never refused as a duplicate |
| LockAccounting.IndexedAdd | raiden/transfer/channel.py:1391-1400 | adding a lock under a fresh secrethash keeps map and list in step |
| LockAccounting.IndexedRemove | raiden/transfer/channel.py:1403-1412 | removing a lock and its encoding keeps map and list in step |
| LockAccounting.OverwriteBreaks | raiden/transfer/channel.py:1391-1400 | overwriting a pending lock with a different one strands the old encoding |
| LockAccounting.AmountIsSum | raiden/transfer/channel.py:1139-1149 | for disjoint maps the locked amount is the sum over their union |
| LockAccounting.AllLocksRegister | raiden/transfer/channel.py:1853-1862 | learning a secret leaves the union of the maps as it was and the maps disjoint |
| LockAccounting.AllLocksRegisterOnchain | raiden/transfer/channel.py:1865-1895 | so does learning it from the chain, when the lock is deleted first |
| LockAccounting.CurrentIsAmount | raiden/transfer/channel.py:1214-1228 | with the accounting kept, the current balance proof data are the amount and root of the pending locks |
| AccountedRuns.SendTransferAccounted | raiden/transfer/channel.py:1422-1502 | sending a transfer keeps the accounting if and only if its secrethash is not pending |
| AccountedRuns.AcceptedTransferAccounted | raiden/transfer/channel.py:2428-2468 | accepting a transfer keeps the accounting if and only if its secrethash is not pending |
| AccountedRuns.SendUnlockAccounted | raiden/transfer/channel.py:1505-1640 | sending an unlock keeps the accounting |
| AccountedRuns.SendLockExpiredAccounted | raiden/transfer/channel.py:1765-1795 | expiring a lock keeps the accounting if and only if it is not registered on-chain |
| AccountedRuns.ReceiveUnlockAccounted | raiden/transfer/channel.py:2471-2502 | receiving an unlock, accepted or refused, keeps the accounting |
| AccountedRuns.ReceiveLockExpiredAccounted | raiden/transfer/channel.py:2387-2425 | receiving an expired lock, accepted or refused, keeps the accounting |
| AccountedRuns.RegisterOnchainAccounted | raiden/transfer/channel.py:1913-1933 | registering a secret on-chain keeps the accounting of both ends if and only if the lock is deleted first or each end has no such lock, or only one that expired before the block |
| AccountedRuns.StepAccounted | raiden/transfer/channel.py:1574-2783 | every step of the channel keeps the lock accounting of both ends if and only if it respects the lock discipline |
| AccountedRuns.StepInRange | raiden/transfer/channel.py:440-456 | every disciplined step keeps transferred plus locked amount of both ends within 256 bits |
| AccountedRuns.RunAccounted | raiden/transfer/channel.py:1139-1347 | over every disciplined run: disjoint maps, encodings exactly the list, amounts and root those of the proof, no overflow |
| Solvency.ExpiryFreesBalance | raiden/transfer/channel.py:1798-1850 | expiring withdraws never raises the total withdraw |
| Solvency.WithdrawSolvent | raiden/transfer/channel.py:2013-2041 | an accepted withdraw leaves both ends solvent if and only if it fits in balance minus locked |
| Solvency.RequestSolvent | raiden/transfer/channel.py:2106-2211 | the same for a withdraw the partner requests |
| Solvency.OnchainSolvent | raiden/transfer/channel.py:2724-2750 | the same for a withdraw seen on-chain |
| Solvency.CoopSettleSolvent | raiden/transfer/channel.py:1965-2009 | starting a cooperative settlement keeps both ends solvent |
| Solvency.StepSolvent | raiden/transfer/channel.py:1166-1251 | every disciplined step keeps balance minus locked of both ends non-negative if and only if its withdraw fits |
| Solvency.RunSolvent | raiden/transfer/channel.py:2805-2844 | over every disciplined run whose withdraws fit, both ends stay solvent |
| FailingRuns.ReuseFails | raiden/transfer/channel.py:1391-1400 | on every fresh channel two transfers with the same secrethash and different locks break the accounting |
| FailingRuns.ExpiringRegisteredFails | raiden/transfer/channel.py:1713-1795 | on every fresh channel expiring a lock after its secret was registered on-chain breaks the accounting |
| FailingRuns.WithdrawOverdraws | raiden/transfer/channel.py:929-956 | on every fresh channel a transfer of the whole deposit and then a withdraw of it are both accepted, and the unlock leaves a negative balance |
| FailingRuns.RefusedButRecorded | raiden/transfer/channel.py:2137-2182 | on every fresh channel with a deposit of the partner a settlement request below the maximum is refused but its nonce and total are kept |
| Sanity.SanityExactly | raiden/transfer/channel.py:2786-2872 | with the proved invariants the sanity check holds if and only if a settlement is in force or all our pending withdraws are positive |
| Sanity.StepClimbs | raiden/transfer/channel.py:2799-2803 | every step keeps our pending withdraws non-negative and strictly ascending |
| Sanity.StepSane | raiden/transfer/channel.py:2786-2872 | a disciplined, fitting step keeps the sanity check if and only if it does not end a settlement that leaves a withdraw of nothing behind |
| Sanity.RunSane | raiden/transfer/channel.py:2786-2894 | in the state any disciplined, fitting run from a fresh channel reaches, the check holds if and only if a settlement is in force or all our pending withdraws are positive |
| Sanity.RunSaneThroughout | raiden/transfer/channel.py:2875-2894 | the check holds after every step of such a run if and only if no step of it leaves a withdraw of nothing behind |
| Sanity.NothingAnnouncedFails | raiden/transfer/channel.py:2173-2197 | on every fresh channel without a deposit of ours the run of a settlement the partner starts and lets expire makes the check fail |
| Nonces.AcceptedIsNext | raiden/transfer/channel.py:574-580 | an accepted message carries the next nonce |
| Nonces.PartnerNonceStep | raiden/transfer/channel.py:2106-2502 | the partner's nonce moves by one with every accepted message and not otherwise |
| Nonces.RefusedUnchanged | raiden/transfer/channel.py:2214-2502 | a message whose validity check fails leaves the channel unchanged |
| Nonces.RefusedRequest | raiden/transfer/channel.py:2125-2182 | a withdraw request leaves the channel unchanged if and only if the validity check refuses it |
| Nonces.AcceptedSequential | raiden/transfer/channel.py:574-580 | over every run the accepted nonces are consecutive and in order |
| Nonces.ReplayIgnored | raiden/transfer/channel.py:574-580 | redelivering an accepted message at any later time fails no assertion and changes nothing |
| Nonces.StepSendsSequential | raiden/transfer/channel.py:1286-1288 | a step spends each new nonce of ours on exactly one message if and only if it does not join a settlement |
| Nonces.RunSendsSequential | raiden/transfer/channel.py:1286-1288 | over every run without such a step our own messages carry consecutive nonces |
| Lifecycle.StepForward | raiden/transfer/channel.py:1295-1369 | no step moves the status back or makes it unusable, and a closed channel knows its closing block |
| Lifecycle.RunForward | raiden/transfer/channel.py:1295-1369 | the same over every run |
| Lifecycle.SettleSent | raiden/transfer/channel.py:2525-2542 | settle is sent only on a closed channel, after closing block plus settle timeout, and not again |
| Lifecycle.ProofSubmitted | raiden/transfer/channel.py:1643-1665 | a proof handed to the contract is the partner's current one, goes ahead of any settle transaction, and an update is sent only if none was and somebody else closed the channel |
| Lifecycle.ProofChanges | raiden/transfer/channel.py:533-536 | the partner's proof changes only by acceptance, which needs an open channel and the next nonce |
| Lifecycle.RunLifecycle | raiden/transfer/channel.py:2505-2616 | over every run: at most one settle and one update, and each submitted proof is the newest of all that are ever accepted |
| Authenticity.AcceptedAuthentic | raiden/transfer/channel.py:459-586 | an accepted message comes from the partner, carries the partner's signature where it has one, and is made out for this channel and participant |
| Authenticity.RunSubmitsAuthentic | raiden/transfer/channel.py:1643-1665 | over every run each proof handed to the contract was signed by the partner for this channel and is in range |
| Authenticity.WithdrawSentConfirmed | raiden/transfer/channel.py:2230-2267 | a withdraw goes on-chain only with the partner's confirmation of our current total, and outside any settlement |
| Authenticity.CoopSettleSentSigned | raiden/transfer/channel.py:2074-2102 | a cooperative settlement goes on-chain only once both signatures of the partner are there |
| Authenticity.JoinedCoopSettlePaysAll | raiden/transfer/channel.py:2173-2197 | the two shares of a cooperative settlement that the partner starts add up to both deposits, and it is answered with our share |
| Settlement.DroppedWhenUnlocked | raiden/transfer/channel.py:2608-2783 | a settled channel is dropped exactly when the unlock of each end that had locks in the settlement has been seen, in any order |
| Settlement.RunKeepsTimeouts | raiden/transfer/channel.py:2045-2071 | over every run the settle timeout stays at least twice the reveal timeout |
| WithdrawOrder.EarlyExit | raiden/transfer/channel.py:1805-1815 | stopping at the first unexpired withdraw equals expiring all expired ones if and only if the expired ones come first |
| WithdrawOrder.StepOrderedExactly | raiden/transfer/channel.py:1668-1690 | a step keeps our withdraws ordered by total and expiration if and only if the withdraw it announces, if any, does not expire before a smaller one or after a larger one, nor comes behind a larger one |
| WithdrawOrder.StepInOrder | raiden/transfer/channel.py:1668-1690 | an orderly step keeps our withdraws strictly ordered by total and ordered by expiration |
| WithdrawOrder.RunInOrder | raiden/transfer/channel.py:1798-1850 | over every orderly run the early exit is therefore justified at any later block |
| WithdrawOrder.LoweredTimeoutBreaksOrder | raiden/transfer/channel.py:2045-2071 | with a lowered reveal timeout an expired withdraw is missed |
| Ledgers.UsableCanSend | raiden/transfer/channel.py:241-296 | a usable channel and a fresh secrethash satisfy every assertion of the send |
| Ledgers.TransferFits | raiden/transfer/channel.py:1422-1610 | a sent transfer is the next valid envelope of the sender's ledger, and moves that ledger accordingly |
| Ledgers.UnlockFits | raiden/transfer/channel.py:1505-1640 | so is a sent unlock |
| Ledgers.ExpiredFits | raiden/transfer/channel.py:1713-1795 | so is a sent expired lock |
| Ledgers.TransferAccepted | raiden/transfer/channel.py:712-801 | a valid next transfer is accepted and moves the copy as it moved the original |
| Ledgers.UnlockAccepted | raiden/transfer/channel.py:852-926 | so is a valid next unlock |
| Ledgers.ExpiredAccepted | raiden/transfer/channel.py:604-709 | a valid next expired lock is accepted if and only if the receiver passed its threshold and neither end knows the secret on-chain |
| Ledgers.ArrivalAccepted | raiden/transfer/channel.py:2387-2502 | the three together, as the step the envelope causes |
| Agreement.ChainGrows | raiden/transfer/channel.py:852-926 | envelopes in flight never lower the transferred amount |
| Agreement.FundsAgree | raiden/transfer/channel.py:1235-1251 | a sender never believes to have more to spend than its receiver will grant |
| Agreement.LocalAgreed | raiden/transfer/channel.py:1422-1933 | sends, secrets and deposits at one node keep the two nodes in agreement |
| Agreement.DeliverAgreed | raiden/transfer/channel.py:2387-2502 | so does a delivery |
| Agreement.RunAgreed | raiden/transfer/channel.py:241-296 | over every run the receiver's copy, moved on by the queued envelopes, is the sender's own state |
| Agreement.FreshAgreed | raiden/transfer/state.py:319-358 | two nodes that have just opened a channel agree |
| Agreement.NextIsAccepted | raiden/transfer/channel.py:2387-2502 | in every state of every run the next envelope is accepted, an expired lock exactly once it is ripe |
| Agreement.EmptyQueueMirrors | raiden/transfer/channel.py:1139-1228 | with an empty queue the copy is the original, down to locked amount and locksroot |
| WithdrawHandshake.RequestAccepted | raiden/transfer/channel.py:979-1020 | a withdraw request is accepted by an agreeing node |
| WithdrawHandshake.MessagesFollow | raiden/transfer/channel.py:2013-2276 | for every valid withdraw each message is answered by the next one, and the transaction is sent exactly if its expiration is far enough away |
| WithdrawHandshake.HandshakeSucceeds | raiden/transfer/channel.py:2013-2276 | after request and confirmation the two nodes agree again in every respect, with the total withdrawn on both sides |
| ReceivedAssertions.RequestsSafeExactly | raiden/transfer/channel.py:2144-2166 | no withdraw request can fail the assertion if and only if no settlement of ours is in force, or it grants the partner its current maximum, or no request for the maximum could be valid |
| ReceivedAssertions.ConfirmationsSafeExactly | raiden/transfer/channel.py:2240-2248 | no confirmation can fail the assertion if and only if at most one side has started a settlement, or no confirmation could be valid |
| ReceivedAssertions.StepKeepsCurrent | raiden/transfer/channel.py:1965-2009 | a settlement of ours goes on granting the partner its maximum in every step that moves no money |
| ReceivedAssertions.StepOneCoopSettle | raiden/transfer/channel.py:1965-2009 | a step keeps it so that at most one side has started a settlement, if and only if it does not start ours while theirs is in force |
| ReceivedAssertions.RunNeverRaises | raiden/transfer/channel.py:2106-2276 | after every run without such steps no withdraw request and no confirmation can fail an assertion |
| ReceivedAssertions.DepositThenRequestRaises | raiden/transfer/channel.py:2165-2166 | a settlement of ours, a deposit of the partner and a valid request for the new maximum fail the assertion |
| ReceivedAssertions.TwoSettlementsRaise | raiden/transfer/channel.py:2244-2248 | a settlement of the partner, then one of ours and its valid confirmation fail the assertion |
| NettingChannel.Netting.Take | raiden/transfer/channel.py:1936-2783 | every step on the object ends in the state and events of the model, raises exactly if an assertion fails, and drops the channel exactly if the model does |
| NettingChannel.Netting.TakeAll | raiden/transfer/channel.py:2875-2894 | after every disciplined, fitting run from a fresh channel the object has its lock accounting, range and solvency, and its sanity check holds exactly under the stated condition |
| NettingChannel.EndState.constructor | raiden/transfer/state.py:319-358 | a new end has no locks, no withdraws, no proof and nonce 0 |
| NettingChannel.EndState.RegisterOnchainSecret | raiden/transfer/channel.py:1865-1895 | in-place move of a lock equals its function, with and without deletion |
| NettingChannel.EndState.ExpireWithdraws | raiden/transfer/channel.py:1798-1850 | the loop over a copy of the withdraws, with its early exit, equals its function |
| NettingChannel.Netting.HandleWithdrawRequest | raiden/transfer/channel.py:2106-2211 | raises exactly if a valid request contradicts the settlement of ours, then with the request already recorded; otherwise state and events are those of the model |
| NettingChannel.Netting.HandleWithdrawConfirmation | raiden/transfer/channel.py:2215-2276 | raises exactly if a valid confirmation finds settlements of both sides, then with the nonce already taken; otherwise state and events are those of the model |
| NettingChannel.Netting.HandleBlock | raiden/transfer/channel.py:2506-2544 | in-place handling equals its function |
| NettingChannel.Netting.HandleSettled | raiden/transfer/channel.py:2608-2681 | in-place handling equals its function, including when the channel is dropped |
| NettingChannel.Netting.HandleBatchUnlock | raiden/transfer/channel.py:2754-2783 | in-place handling equals its function, including when the channel is dropped |
| StateLog.NewestUsable | raiden/storage/sqlite.py:452-496 | the snapshot found is usable for the target and every newer one is not |
| StateLog.NewestSnapshot | raiden/storage/sqlite.py:452-496 | a target that has a snapshot of its own gets that snapshot |
| StateLog.BetweenHead | raiden/storage/sqlite.py:640-660 | the inclusive range that starts at a logged change starts with that change |
| StateLog.BetweenSplit | raiden/storage/sqlite.py:640-660 | a range splits behind any identifier into two that share nothing |
| StateLog.RestoreExact | raiden/storage/wal.py:78-104 | recovery equals folding the whole log for every target if and only if applying the last change of each snapshot again changes nothing |
| StateLog.IdempotentSettles | raiden/transfer/architecture.py:58-63 | idempotent changes meet that condition |
| StateLog.RecoveryRefinesReplay | raiden/storage/wal.py:44-127 | with idempotent changes recovery equals folding the whole log, for every log, snapshot and target |
| LogRuns.BatchAppended | raiden/storage/wal.py:219-252 | a batch appends its changes in order under larger identifiers, and exactly the events they cause, each naming its own change |
| LogRuns.PublishedExactly | raiden/storage/wal.py:254-271 | what a batch publishes: its fold if every transition worked in place, otherwise what the first other one left in the object it was handed; the two agree if and only if every transition worked in place or that is the fold |
| LogRuns.CommitInStep | raiden/storage/wal.py:202-271 | a committed batch keeps tables and published state consistent if and only if the fold of the batch is what is published |
| LogRuns.RestartSound | raiden/raiden_service.py:665-702 | a restart recovers exactly the state the log defines and leaves the tables alone, if applying the last change of the newest snapshot again changes nothing |
| LogRuns.RestartExactly | raiden/raiden_service.py:665-702 | with nothing logged since the newest snapshot, if and only if |
| LogRuns.IdempotentIsCareful | raiden/transfer/architecture.py:58-63 | with idempotent changes every restart meets that condition |
| LogRuns.ActionSound | raiden/storage/wal.py:202-284 | every batch that works in place, failure, snapshot and restart from a settled snapshot keeps tables and published state consistent |
| LogRuns.HistorySound | raiden/storage/wal.py:44-284 | over any number of them the published state is the fold of the whole log, and every earlier state whose snapshot is settled can be restored |
| ChannelLog.StepUnique | raiden/transfer/channel.py:1668-1690 | every step keeps the pending withdraws of both ends free of repeated totals |
| ChannelLog.MessageTwice | raiden/transfer/channel.py:2106-2502 | handling a message again right away is allowed and changes nothing |
| ChannelLog.BlockTwice | raiden/transfer/channel.py:2506-2544 | neither does handling a block again |
| ChannelLog.CoopSettleTwice | raiden/transfer/channel.py:1965-2009 | starting a settlement again changes nothing, if and only if it was refused or withdraws something of ours |
| ChannelLog.DispatchedTwice | raiden/transfer/architecture.py:60-63 | a state change of the channel applied again changes nothing, if and only if it is not a settlement of nothing |
| ChannelLog.LockStepTwice | raiden/transfer/channel.py:1574-1795 | what the transfer tasks do to the locks cannot be repeated or changes nothing when repeated |
| ChannelLog.SettledExactly | raiden/storage/wal.py:78-104 | a snapshot of a channel can be recovered from if and only if its last change is not a settlement of nothing |
| ChannelLog.ChannelHistorySound | raiden/storage/wal.py:44-284 | over any batches, failures, snapshots and restarts, none of them from such a snapshot, a logged channel is the fold of its log |
| ChannelLog.SettlementRecoversWrongly | raiden/storage/wal.py:97-104 | on every fresh channel without a deposit of ours a snapshot taken after a settlement recovers to a wrong nonce |
| LogRuns.RestartCountsTwice | raiden/raiden_service.py:690-697 | a restart from a later snapshot counts exactly one change more than there are, on top of what the snapshot had miscounted; one from the first snapshot does not |
| WriteAheadLog.Database.WriteEvents | raiden/storage/sqlite.py:239-253 | the loop appends one row per event, all naming the same change |
| WriteAheadLog.Database.Begin | raiden/storage/sqlite.py:878-884 | nothing changes but the flag; what is committed is what was there |
| WriteAheadLog.Database.Commit | raiden/storage/sqlite.py:885-890 | everything written is committed |
| WriteAheadLog.Database.Rollback | raiden/storage/sqlite.py:886-890 | the tables are what they were at the beginning of the transaction |
| WriteAheadLog.Database.WriteStateSnapshot | raiden/storage/sqlite.py:418-430 | one row is appended unless the change already has a snapshot |
| WriteAheadLog.ReplayStateChanges | raiden/storage/wal.py:107-127 | the loop computes the fold over the inclusive range and how many changes it applied |
| WriteAheadLog.Dispatcher.Dispatch | raiden/storage/wal.py:219-252 | the change, its events and its identifier are logged, and the state object follows the transition |
| WriteAheadLog.Log.Process | raiden/storage/wal.py:202-271 | wherever a batch fails, log and published state are as before; otherwise both are those of the whole batch; the object readers hold is never written |
| WriteAheadLog.Log.Snapshot | raiden/storage/wal.py:273-284 | writes the published state with its change, and fails exactly when nothing was dispatched since the start or the change already has a snapshot |
| WriteAheadLog.Service.constructor | raiden/raiden_service.py:643-702 | the restarted service is the restart of its tables |
| WriteAheadLog.Service.MaybeSnapshot | raiden/raiden_service.py:997-1003 | when more than 500 changes have been counted since the last one a snapshot is taken or, if there can be none, nothing changes; otherwise nothing is done |
| WriteAheadLog.Service.HandleStateChanges | raiden/raiden_service.py:883-990 | a batch that fails leaves service and tables as they were; otherwise it is logged, published and counted, and the snapshot that may be due covers it |
| BlockSync.BatchSize | raiden/blockchain/utils.py:77-89 | the batch size is always within its configured bounds |
| BlockSync.SmallEnough | raiden/blockchain/utils.py:61-75 | after as many halvings as the initial size the minimum is reached |
| BlockSync.BatchSizeAdjuster.Decrease | raiden/blockchain/utils.py:61-75 | one step down, or an exception at the minimum; so only finitely many steps down |
| BlockSync.NextBlocks | raiden/blockchain/events.py:380-391 | the range begins right after the last fetched block and never passes the target |
| BlockSync.BlockchainEvents.FetchLogsInBatch | raiden/blockchain/events.py:299-448 | last fetched block and batch size end up as specified, in every case that returns and every one that raises |
| BlockSync.StepInStep | raiden/raiden_service.py:1154-1221 | every attempt, failure and restart keeps the committed ranges gap free up to the recovered block, at most the confirmed head |
| BlockSync.RunInStep | raiden/raiden_service.py:1154-1256 | the same over every run |
| BlockSync.EveryBlockOnce | raiden/raiden_service.py:767-787 | every block from the start to the recovered one is in exactly one committed range |
| BlockSync.GoingOnLeavesGap | raiden/blockchain/events.py:441-448 | a node that went on after a failed batch without restarting would leave a gap |
| BlockSync.AttemptRaises | raiden/blockchain/events.py:410-448 | an attempt raises only if the client fails or the last block is missing, or with the batch size at its minimum and nothing changed |
| BlockSync.AttemptProgress | raiden/blockchain/events.py:410-441 | every attempt that does not raise gets closer to the target or to the minimum, and only a successful one moves the last fetched block |
| FilterDiscovery.NewFiltersFromEvents | raiden/blockchain/events.py:228-245 | the loop collects exactly the created networks and opened channels |
| FilterDiscovery.OpenedChannelsFrom | raiden/blockchain/events.py:237-243 | a channel is collected if and only if its opening is among the events |
| FilterDiscovery.RankFalls | raiden/blockchain/events.py:495-579 | each round has less to look for than the one before |
| FilterDiscovery.Tracker.QueryAndTrack | raiden/blockchain/events.py:450-581 | at most three rounds; the result and the filter followed afterwards are those of the rounds done, also after a timeout |
| StableSort.SelectSort | raiden/blockchain/events.py:248-249 | the sort is stable: selecting commutes with sorting |
| DiscoveryOrder.QueriesAsk | raiden/blockchain/filters.py:141-250 | how many of a filter's queries ask for an event |
| DiscoveryOrder.CopiesReturned | raiden/blockchain/events.py:483-581 | the exact number of copies of an event that a batch returns, for every filter and chain |
| DiscoveryOrder.DiscoverOnceExactly | raiden/blockchain/events.py:483-581 | for every filter and event: an irrelevant event is not returned, a relevant one exactly as often as it happened if and only if it is found in exactly one way |
| DiscoveryOrder.DiscoverExact | raiden/blockchain/events.py:483-581 | if the filter predates the batch, it returns exactly the relevant events, each once, those of a channel as they happened |
| DiscoveryOrder.DiscoverFromLogs | raiden/blockchain/events.py:483-581 | and nothing that did not happen |
| DiscoveryOrder.CreationFirst | raiden/blockchain/events.py:453-482 | the creation of a network that is new to the filter comes before all its events |
| DiscoveryOrder.OpeningFirst | raiden/blockchain/events.py:453-482 | a channel's opening comes before all its events |
| DiscoveryOrder.FollowsKnown | raiden/blockchain/events.py:570-577 | after a batch exactly the known networks and channels are followed |
| DiscoveryOrder.TimeoutTracks | raiden/blockchain/events.py:570-581 | after a timeout in the second round the networks created in the batch are already in the filter |
| DiscoveryOrder.RepeatedRoundDuplicates | raiden/blockchain/events.py:570-581 | from that filter a repeated batch, of whatever range, returns the openings of such a network twice |
| ConfirmedChain.RoundsCover | raiden/blockchain/events.py:483-581 | after any number of rounds, so also after a timeout, the filter follows all that the log has announced and is not over, and nothing that is never announced |
| ConfirmedChain.BatchCovers | raiden/blockchain/events.py:570-577 | after a whole batch it does so for the log with that batch, and it is not ahead of the log if it was not before |
| ConfirmedChain.RelevantHere | raiden/blockchain/events.py:483-581 | what a batch finds relevant is what concerns the node on the whole chain, whichever batch the event is in |
| ConfirmedChain.OnceExactly | raiden/blockchain/events.py:483-581 | a batch finds an event that concerns the node once if and only if its filter does not already follow the network or channel that the log has yet to announce |
| ConfirmedChain.HandedHas | raiden/raiden_service.py:1154-1185 | an event is handed to the log if and only if it happened in the committed blocks and concerns the node |
| ConfirmedChain.HandedExactly | raiden/raiden_service.py:1154-1185 | the events of a channel, and any other single event, are handed to the log exactly as they happened if and only if no committed batch that has some was ahead on them; those that do not concern the node never are |
| ConfirmedChain.HoldsExactly | raiden/raiden_service.py:1154-1185 | the same for all events together |
| ConfirmedChain.SecretsExactly | raiden/blockchain/events.py:241-243 | a secret on the chain is handed to the log as it happened if some channel was followed before its batch, and otherwise not at all |
| ConfirmedChain.TimeoutThenTwice | raiden/blockchain/events.py:410-417 | a timeout in the second round of one attempt, and the log that the next attempt is committed to no longer holds exactly what happened |
| LogOrder.InBlockOrderExactly | raiden/blockchain/events.py:483-581 | a batch is in block order if and only if no event that a later round finds lies in a block before one that an earlier round finds |
| LogOrder.BlockOrderFails | raiden/blockchain/events.py:483-581 | with any filter, a new network, an opening in it and a later event of a channel followed before are not in block order |
| LogOrder.RoundPrecedes | raiden/blockchain/filters.py:141-250 | within a round a creation comes before the openings, and an opening before the channel events, of blocks that are not earlier, the same block included |
| LogOrder.AnnouncedFirst | raiden/blockchain/events.py:453-482 | in every log an opening comes after the creation of its network and a channel event after the opening of its channel, whatever timed out, failed or restarted |
| ChainLog.NetworkKnown | raiden/blockchain/state.py:229-237 | so the assertion that the state knows the network of an opening channel never fails |
| ChainLog.LogHoldsExactly | raiden/raiden_service.py:1154-1221 | the tables hold of each kind of event exactly what concerns the node up to their block number, if and only if no committed batch was ahead |
| ChainLog.StateNetworks | raiden/raiden_service.py:239-259 | the networks a restart follows are exactly those the registry created by the recovered block |
| ChainLog.StateChannels | raiden/raiden_service.py:239-259 | the channels of the recovered state were all opened by the node by then, and none is missing that is not over |
| ChainLog.RebuiltCovers | raiden/raiden_service.py:239-259 | the filter a restart builds follows all that the log has announced and is not over, and is never ahead of it |
| ChainLog.CommitKeeps | raiden/raiden_service.py:1162-1221 | a committed batch keeps log, commits and state in step, and the block number is its last block |
| ChainLog.RestartKeeps | raiden/raiden_service.py:665-710 | so does every restart, whatever snapshot it starts from |
| ChainLog.Synchronizer.constructor | raiden/raiden_service.py:765-790 | on the tables any earlier run has left the node goes on right behind the block number its log recovers, with the rebuilt filter, which is not ahead |
| ChainLog.Synchronizer.Poll | raiden/blockchain/events.py:299-448 | the range is the next one, the events are those of all rounds, and whatever the client does the filter still covers the log |
| ChainLog.Synchronizer.CommitBatch | raiden/raiden_service.py:1162-1221 | the events of a range and its block number are logged and published together or, wherever the transaction fails, not at all |
| ChainLog.Synchronizer.Synchronize | raiden/raiden_service.py:1109-1256 | the loop ends with the target reached, the time used up, or an exception of one of four stated reasons; in each case the log holds exactly what concerns the node if and only if no batch was ahead, which holds if the client fails in first rounds only |
| MessageOrder.OnMessages | raiden/message_handler.py:67-126 | each distinct message is handled once, and all state changes that come of it are dispatched in the order of the sort key |
| MessageOrder.DispatchInOrder | raiden/message_handler.py:104-126 | in any batch the consecutive envelopes of each channel are dispatched in the order of their nonces, and nothing but reveals after a reveal, whatever order they arrived in |
| MessageOrder.RevealsLearn | raiden/transfer/channel.py:1898-1910 | the order of secret reveals does not matter |
| MessageOrder.BatchEqualsInOrder | raiden/message_handler.py:104-126 | the final state of a channel is that of in-order delivery of its own envelopes, also if the batch has messages for other channels |
| MessageOrder.RestoredExactly | raiden/message_handler.py:104-126 | the dispatch of consecutive messages of a channel is in the order of their nonces, whatever order they arrived in, if and only if none but the first is a withdraw message |
| MessageOrder.InOrderExactly | raiden/message_handler.py:104-126 | and, for messages that are all valid in that order, that is also exactly when every order of arrival ends in the channel of in-order delivery |
| MessageOrder.OvertakingLoses | raiden/message_handler.py:111-125 | a withdraw message that arrives ahead of an earlier envelope is lost, with everything behind it |
| MessageOrder.RequestOvertakesTransfer | raiden/message_handler.py:111-125 | on every fresh channel with a deposit of the partner a transfer and a request, both valid in order, are dispatched the other way round and the request is lost |
| LockReclassification.UpdateLockInfo | raiden/raiden_event_handler.py:114-155 | the in-place update equals the set-comprehension specification |
| LockReclassification.ReclassifiedDisjoint | raiden/raiden_event_handler.py:124-139 | disjoint maps stay disjoint, and no lock is left unlocked off-chain |
| LockReclassification.DisjointExactly | raiden/raiden_event_handler.py:124-155 | exactly when the result is disjoint, for any input |
| LockReclassification.GainsAccountForAll | raiden/raiden_event_handler.py:718-766 | the two gain sums share no lock, and with what is dropped they make up everything that was pending |
| DependencyOrder.ResolveDeps | tools/pip-compile-wrapper.py:158-182 | each chosen name once, after everything it needs; fails if and only if some names wait for each other or for a missing entry, that is, with all entries present, if and only if there is a circle |
| DependencyOrder.StuckHasCycle | tools/pip-compile-wrapper.py:171-174 | names that all wait for each other contain a circle |
| DependencyOrder.CycleIsStuck | tools/pip-compile-wrapper.py:171-174 | and a circle is never resolved |

## Left out

- Signature recovery and hashing: a signature is the address recovered from it, keccak is any function.
- Message identifiers, recipient metadata, routes, fee schedules and the pseudo-random generator: no proved property depends on them.
- Initiator, mediator and target tasks and `node.state_transition`: callers of the channel are represented by what `ChannelRuns.Allowed` and `AccountedRuns.LockDiscipline` ask of them, and the log takes any transition.
- `is_channel_usable_for_mediation`, `is_secret_known` and similar queries: only the transfer tasks consult them, and those are not part of this model.
- Serialisation, SQL and the generation of ULIDs: tables are sequences with increasing identifiers.
- Scheduling and wall-clock time: locked sections are single steps, and whether the time is up is an input.
- Rounding of the floating-point scale: the batch size is computed from exact powers of two.
- Refund transfers in `Agreement`: a refund is accepted under the same conditions as a transfer and an additional match with the original.
- Withdraws and blocks in `Agreement` runs: they take part in `WithdrawHandshake` only, one exchange at a time.
- Decoding of logs and the table of contract interfaces: events are given decoded.
- ChainLog.Batch: every event that is handed over is logged; that `blockchainevent_to_statechange` yields no state change for the closing, update, settlement or unlock of a channel that is no longer in the state is not modelled.
- `ChainLog.Known` keeps the contracts of the chain state only; which event is the last of a channel is given with the event, since it follows from the on-chain locksroots (`Settlement.DroppedWhenUnlocked`).
- NettingChannel.Netting.HandleSettled: the marks left on a cooperative settlement just before the channel is dropped are not modelled, since they are dropped with it.
- LogRuns.NextId: identifiers are increasing by construction; that the source's generator achieves this is not proved.
