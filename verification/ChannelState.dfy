/**
 The values held by a netting channel (raiden/transfer/state.py) and the functions of
 raiden/transfer/channel.py that only read them.
 */
module ChannelState {
  import opened LockCodec
  import opened LockMaps

  const MAXIMUM_PENDING_TRANSFERS := 160
  const CONFIRMATIONS := 5

  datatype CanonicalId = CanonicalId(chain: nat, tokenNetwork: Address, channel: nat)

  /** `signer` is the address recovered from the signature; our own proofs carry none. */
  datatype BalanceProof = BalanceProof(
    nonce: nat, transferred: int, lockedAmount: int, locksroot: Hash,
    id: CanonicalId, signer: Option<Address>)

  datatype Withdraw = Withdraw(total: int, expiration: int, nonce: nat)

  datatype CoopSettle = CoopSettle(
    totalInitiator: int, totalPartner: int, expiration: int,
    requestSigned: bool, confirmationSigned: bool, tx: Option<TxStatus>)

  datatype TxResult = Success | Failure
  datatype TxStatus = TxStatus(started: Option<nat>, finished: Option<nat>, result: Option<TxResult>)

  /** `NettingChannelEndState`. The withdraw dictionary is kept in insertion order. */
  datatype End = End(
    address: Address,
    contractBalance: nat,
    onchainTotalWithdraw: nat,
    withdrawsPending: seq<Withdraw>,
    withdrawsExpired: seq<Withdraw>,
    coopSettle: Option<CoopSettle>,
    locked: LockMap,
    unlocked: ProofMap,
    onchain: ProofMap,
    balanceProof: Option<BalanceProof>,
    pendingLocks: seq<Bytes>,
    onchainLocksroot: Hash,
    nonce: nat)

  /** `NettingChannelState`, together with the hash function its locksroots use. */
  datatype Channel = Channel(
    keccak: Bytes -> Hash,
    id: CanonicalId,
    revealTimeout: nat,
    settleTimeout: nat,
    our: End,
    partner: End,
    close: Option<TxStatus>,
    settle: Option<TxStatus>,
    update: Option<TxStatus>)

  datatype Status = Opened | Closing | Closed | Settling | Settled | Unusable

  function Max(a: int, b: int): int { if a >= b then a else b }

  function Min(a: int, b: int): int { if a <= b then a else b }

  // ---------- locks ----------

  function Locksroot(keccak: Bytes -> Hash, pending: seq<Bytes>): Hash
  {
    keccak(Join(pending))
  }

  function NoLocksRoot(keccak: Bytes -> Hash): Hash
  {
    keccak([])
  }

  function LocksWith(pending: seq<Bytes>, lock: Lock): Option<seq<Bytes>>
  {
    if Encode(lock) !in pending then Some(pending + [Encode(lock)]) else None
  }

  function LocksWithout(pending: seq<Bytes>, encoded: Bytes): Option<seq<Bytes>>
  {
    if encoded in pending then Some(RemoveFirst(pending, encoded)) else None
  }

  predicate IsLockPending(e: End, h: Hash)
  {
    h in e.locked || h in e.unlocked || h in e.onchain
  }

  function GetLock(e: End, h: Hash): (r: Option<Lock>)
    ensures r.Some? <==> IsLockPending(e, h)
  {
    if h in e.locked then Some(e.locked[h])
    else if h in e.unlocked then Some(e.unlocked[h].lock)
    else if h in e.onchain then Some(e.onchain[h].lock)
    else None
  }

  /** Neither known to be registered on-chain, nor before the given block. */
  predicate IsLockExpired(e: End, lock: Lock, block: int, threshold: int)
  {
    lock.secrethash !in e.onchain && block >= threshold
  }

  function SenderThreshold(expiration: int): int { expiration + 2 * CONFIRMATIONS }

  function ReceiverThreshold(expiration: int): int { expiration + CONFIRMATIONS }

  /** `get_safe_initial_expiration` without an explicit lock timeout. */
  function SafeInitialExpiration(block: int, revealTimeout: nat): int
  {
    block + revealTimeout * 2 - 1
  }

  function AmountLocked(e: End): nat
  {
    SumAmounts(e.locked) + SumAmounts(LocksOf(e.unlocked)) + SumAmounts(LocksOf(e.onchain))
  }

  // ---------- withdraws ----------

  /** `max(withdraws_pending, default=0)`: iterating a dictionary yields its keys. */
  function MaxTotal(ws: seq<Withdraw>): (r: int)
    ensures forall w :: w in ws ==> w.total <= r
    ensures if ws == [] then r == 0 else exists w :: w in ws && w.total == r
  {
    if ws == [] then 0
    else if |ws| == 1 then assert ws[0] in ws; ws[0].total
    else
      assert ws == [ws[0]] + ws[1..];
      Max(ws[0].total, MaxTotal(ws[1..]))
  }

  function OffchainTotalWithdraw(e: End): int { MaxTotal(e.withdrawsPending) }

  function TotalWithdraw(e: End): nat
  {
    Max(OffchainTotalWithdraw(e), e.onchainTotalWithdraw)
  }

  ghost predicate UniqueTotals(ws: seq<Withdraw>)
  {
    forall i, j :: 0 <= i < j < |ws| ==> ws[i].total != ws[j].total
  }

  function FindWithdraw(ws: seq<Withdraw>, total: int): (r: Option<Withdraw>)
    ensures r.Some? ==> r.value in ws && r.value.total == total
    ensures r.None? ==> forall w :: w in ws ==> w.total != total
  {
    if ws == [] then None
    else if ws[0].total == total then Some(ws[0])
    else assert ws == [ws[0]] + ws[1..]; FindWithdraw(ws[1..], total)
  }

  /** `withdraws_pending[w.total] = w`: an existing key keeps its place. */
  function PutWithdraw(ws: seq<Withdraw>, w: Withdraw): (r: seq<Withdraw>)
  {
    if ws == [] then [w]
    else if ws[0].total == w.total then [w] + ws[1..]
    else [ws[0]] + PutWithdraw(ws[1..], w)
  }

  /** `del withdraws_pending[total]`. */
  function DropWithdraw(ws: seq<Withdraw>, total: int): seq<Withdraw>
  {
    if ws == [] then []
    else if ws[0].total == total then ws[1..]
    else [ws[0]] + DropWithdraw(ws[1..], total)
  }

  // ---------- balances ----------

  function Transferred(e: End): int
  {
    if e.balanceProof.Some? then e.balanceProof.value.transferred else 0
  }

  function Balance(sender: End, receiver: End): int
  {
    sender.contractBalance - TotalWithdraw(sender) - Transferred(sender) + Transferred(receiver)
  }

  /** `get_max_withdraw_amount`. */
  function MaxWithdraw(sender: End, receiver: End): int
  {
    sender.contractBalance - Transferred(sender) + Transferred(receiver)
  }

  function Capacity(ch: Channel): int
  {
    ch.our.contractBalance - TotalWithdraw(ch.our) + ch.partner.contractBalance - TotalWithdraw(ch.partner)
  }

  /** The locked amount and locksroot of `get_current_balanceproof`. */
  function CurrentLocked(e: End): nat
  {
    if e.balanceProof.Some? then AmountLocked(e) else 0
  }

  function CurrentLocksroot(keccak: Bytes -> Hash, e: End): Hash
  {
    if e.balanceProof.Some? then e.balanceProof.value.locksroot else NoLocksRoot(keccak)
  }

  function Distributable(sender: End, receiver: End): int
  {
    var limit := Max(UINT256_MAX - Transferred(sender) - CurrentLocked(sender), 0);
    Min(limit, Balance(sender, receiver) - AmountLocked(sender))
  }

  function NextNonce(e: End): nat { e.nonce + 1 }

  // ---------- status ----------

  function GetStatus(ch: Channel): Status
  {
    if ch.settle.Some? then
      if ch.settle.value.result == Some(Success) then Settled
      else if ch.settle.value.finished.None? then Settling
      else Unusable
    else if ch.close.Some? then
      if ch.close.value.result == Some(Success) then Closed
      else if ch.close.value.finished.None? then Closing
      else Unusable
    else Opened
  }

  predicate PriorToClosed(ch: Channel)
  {
    GetStatus(ch) == Opened || GetStatus(ch) == Closing
  }

  // ---------- the usability check ----------

  datatype Usability =
    | Usable | NotOpened | InvalidSettleTimeout | ReachedPendingLimit
    | NotEnoughDistributable | WouldOverflow | LockTimeoutMismatch

  function UsableForNewTransfer(ch: Channel, amount: nat, lockTimeout: Option<nat>): Usability
  {
    if GetStatus(ch) != Opened then NotOpened
    else if ch.settleTimeout < ch.revealTimeout * 2 then InvalidSettleTimeout
    else if |ch.our.pendingLocks| >= MAXIMUM_PENDING_TRANSFERS then ReachedPendingLimit
    else if amount > Distributable(ch.our, ch.partner) then NotEnoughDistributable
    else if Transferred(ch.our) + CurrentLocked(ch.our) + amount > UINT256_MAX then WouldOverflow
    else if lockTimeout.Some? && !(ch.revealTimeout < lockTimeout.value <= ch.settleTimeout)
    then LockTimeoutMismatch
    else Usable
  }
}
