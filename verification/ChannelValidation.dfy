/**
 The messages a channel receives, and the `is_valid_*` predicates of
 raiden/transfer/channel.py in the order in which the source tests their conditions.
 */
module ChannelValidation {
  import opened LockCodec
  import opened ChannelState

  /** A LockedTransfer or RefundTransfer. */
  datatype Transfer = Transfer(
    paymentId: nat, token: Address, initiator: Address, target: Address,
    lock: Lock, proof: BalanceProof)

  datatype UnlockMsg = UnlockMsg(secrethash: Hash, proof: BalanceProof)

  datatype LockExpiredMsg = LockExpiredMsg(secrethash: Hash, proof: BalanceProof)

  /** WithdrawRequest and WithdrawConfirmation; `signer` is recovered from the signature. */
  datatype WithdrawMsg = WithdrawMsg(
    id: CanonicalId, participant: Address, sender: Address, total: nat, nonce: nat,
    expiration: int, signer: Option<Address>, coopSettle: bool)

  datatype WithdrawExpiredMsg = WithdrawExpiredMsg(
    id: CanonicalId, sender: Address, total: nat, nonce: nat)

  datatype Reason =
    | ChannelNotOpen | WrongChannel | WrongTokenNetwork | WrongChain | ProofOverflow
    | NonceNotSequential | BadSignature | DuplicateLock | TooManyLocks | WrongLocksroot
    | WrongTransferred | WrongLocked | ExceedsDistributable | RefundMismatch
    | UnknownLock | LockRegisteredOnchain | LockNotExpired
    | WrongIdentifier | WrongParticipant | WrongSender | WithdrawDecreased | WithdrawUnchanged
    | InsufficientBalance | WithdrawOverflow | UnknownWithdraw | WithdrawMismatch
    | WrongExpiration | WithdrawNotExpired
    | OurPendingLocks | PartnerPendingLocks | OurPendingWithdraws | PartnerPendingWithdraws
    | NotMaximumWithdraw | InvalidRevealTimeout

  datatype Verdict<+T> = Accept(value: T) | Refuse(reason: Reason)

  type Check = Verdict<()>

  function Recovered(signer: Option<Address>, expected: Address): Check
  {
    if signer == Some(expected) then Accept(()) else Refuse(BadSignature)
  }

  /** `is_balance_proof_usable_onchain`. */
  function ProofUsable(ch: Channel, p: BalanceProof, sender: End): Check
  {
    if GetStatus(ch) != Opened then Refuse(ChannelNotOpen)
    else if p.id.channel != ch.id.channel then Refuse(WrongChannel)
    else if p.id.tokenNetwork != ch.id.tokenNetwork then Refuse(WrongTokenNetwork)
    else if p.id.chain != ch.id.chain then Refuse(WrongChain)
    else if p.transferred + p.lockedAmount > UINT256_MAX then Refuse(ProofOverflow)
    else if p.nonce != NextNonce(sender) then Refuse(NonceNotSequential)
    else Recovered(p.signer, sender.address)
  }

  /** `valid_lockedtransfer_check`, with the partner as sender; yields the new pending locks. */
  function CheckTransfer(ch: Channel, p: BalanceProof, lock: Lock): Verdict<seq<Bytes>>
  {
    var sender, receiver := ch.partner, ch.our;
    var pending := LocksWith(sender.pendingLocks, lock);
    var usable := ProofUsable(ch, p, sender);
    if usable.Refuse? then Refuse(usable.reason)
    else if pending.None? then Refuse(DuplicateLock)
    else if |pending.value| > MAXIMUM_PENDING_TRANSFERS then Refuse(TooManyLocks)
    else if p.locksroot != Locksroot(ch.keccak, pending.value) then Refuse(WrongLocksroot)
    else if p.transferred != Transferred(sender) then Refuse(WrongTransferred)
    else if p.lockedAmount != CurrentLocked(sender) + lock.amount then Refuse(WrongLocked)
    else if lock.amount > Distributable(sender, receiver) then Refuse(ExceedsDistributable)
    else Accept(pending.value)
  }

  /** `refund_transfer_matches_transfer`; `sender` is the refunding node. */
  predicate RefundMatches(refund: Transfer, original: Transfer, sender: Address)
  {
    sender != original.target
    && original.paymentId == refund.paymentId
    && original.lock == refund.lock
    && original.target == refund.target
    && original.token == refund.token
  }

  function CheckRefund(ch: Channel, refund: Transfer, original: Transfer): Verdict<seq<Bytes>>
  {
    var r := CheckTransfer(ch, refund.proof, refund.lock);
    if r.Refuse? then r
    else if !RefundMatches(refund, original, ch.partner.address) then Refuse(RefundMismatch)
    else r
  }

  function CheckUnlock(ch: Channel, m: UnlockMsg): Verdict<seq<Bytes>>
  {
    var sender := ch.partner;
    var lock := GetLock(sender, m.secrethash);
    if lock.None? then Refuse(UnknownLock) else
    var pending := LocksWithout(sender.pendingLocks, Encode(lock.value));
    if pending.None? then Refuse(UnknownLock) else
    var usable := ProofUsable(ch, m.proof, sender);
    if usable.Refuse? then Refuse(usable.reason)
    else if m.proof.locksroot != Locksroot(ch.keccak, pending.value) then Refuse(WrongLocksroot)
    else if m.proof.transferred != Transferred(sender) + lock.value.amount then Refuse(WrongTransferred)
    else if m.proof.lockedAmount != CurrentLocked(sender) - lock.value.amount then Refuse(WrongLocked)
    else Accept(pending.value)
  }

  function CheckLockExpired(ch: Channel, m: LockExpiredMsg, block: nat): Verdict<seq<Bytes>>
  {
    var sender, receiver := ch.partner, ch.our;
    if m.secrethash in sender.onchain then Refuse(LockRegisteredOnchain)
    else if m.secrethash !in sender.locked && m.secrethash !in sender.unlocked then Refuse(UnknownLock)
    else
      var lock := if m.secrethash in sender.locked
                  then sender.locked[m.secrethash] else sender.unlocked[m.secrethash].lock;
      var usable := ProofUsable(ch, m.proof, sender);
      if usable.Refuse? then Refuse(usable.reason) else
      var pending := LocksWithout(sender.pendingLocks, Encode(lock));
      if pending.None? then Refuse(DuplicateLock)
      else if !IsLockExpired(receiver, lock, block, ReceiverThreshold(lock.expiration))
      then Refuse(LockNotExpired)
      else if m.proof.locksroot != Locksroot(ch.keccak, pending.value) then Refuse(WrongLocksroot)
      else if m.proof.transferred != Transferred(sender) then Refuse(WrongTransferred)
      else if m.proof.lockedAmount != CurrentLocked(sender) - lock.amount then Refuse(WrongLocked)
      else Accept(pending.value)
  }

  /** `is_valid_total_withdraw`. */
  function CheckTotalWithdraw(ch: Channel, total: int, allowZero: bool): Check
  {
    var amount := total - TotalWithdraw(ch.our);
    if GetStatus(ch) != Opened then Refuse(ChannelNotOpen)
    else if amount < 0 then Refuse(WithdrawDecreased)
    else if !allowZero && amount == 0 then Refuse(WithdrawUnchanged)
    else if Balance(ch.our, ch.partner) < amount then Refuse(InsufficientBalance)
    else if total + TotalWithdraw(ch.partner) > UINT256_MAX then Refuse(WithdrawOverflow)
    else Accept(())
  }

  /** `is_valid_action_coopsettle`. */
  function CheckCoopSettle(ch: Channel, total: int): Check
  {
    var r := CheckTotalWithdraw(ch, total, true);
    if r.Refuse? then r
    else if |ch.our.pendingLocks| > 0 then Refuse(OurPendingLocks)
    else if |ch.partner.pendingLocks| > 0 then Refuse(PartnerPendingLocks)
    else if OffchainTotalWithdraw(ch.our) > 0 then Refuse(OurPendingWithdraws)
    else if OffchainTotalWithdraw(ch.partner) > 0 then Refuse(PartnerPendingWithdraws)
    else Accept(())
  }

  function CheckWithdrawRequest(ch: Channel, m: WithdrawMsg): Check
  {
    var amount := m.total - TotalWithdraw(ch.partner);
    if m.id != ch.id then Refuse(WrongIdentifier)
    else if m.participant != ch.partner.address then Refuse(WrongParticipant)
    else if m.sender != ch.partner.address then Refuse(WrongSender)
    else if amount < 0 then Refuse(WithdrawDecreased)
    else if Balance(ch.partner, ch.our) < amount then Refuse(InsufficientBalance)
    else if m.nonce != NextNonce(ch.partner) then Refuse(NonceNotSequential)
    else if m.total + TotalWithdraw(ch.our) > UINT256_MAX then Refuse(WithdrawOverflow)
    else Recovered(m.signer, m.sender)
  }

  function CheckWithdrawConfirmation(ch: Channel, m: WithdrawMsg): Check
  {
    var pending := FindWithdraw(ch.our.withdrawsPending, m.total);
    var known := if pending.Some? then pending else FindWithdraw(ch.our.withdrawsExpired, m.total);
    if known.None? then Refuse(UnknownWithdraw)
    else if m.id != ch.id then Refuse(WrongIdentifier)
    else if m.total != TotalWithdraw(ch.our) then Refuse(WithdrawMismatch)
    else if m.nonce != NextNonce(ch.partner) then Refuse(NonceNotSequential)
    else if m.expiration != known.value.expiration then Refuse(WrongExpiration)
    else if m.participant != ch.our.address then Refuse(WrongParticipant)
    else if m.sender != ch.partner.address then Refuse(WrongSender)
    else if m.total + TotalWithdraw(ch.partner) > UINT256_MAX then Refuse(WithdrawOverflow)
    else Recovered(m.signer, m.sender)
  }

  function CheckWithdrawExpired(ch: Channel, m: WithdrawExpiredMsg, block: nat): Check
  {
    var known := FindWithdraw(ch.partner.withdrawsPending, m.total);
    if known.None? then Refuse(UnknownWithdraw)
    else if block < ReceiverThreshold(known.value.expiration) then Refuse(WithdrawNotExpired)
    else if m.id != ch.id then Refuse(WrongIdentifier)
    else if m.sender != ch.partner.address then Refuse(WrongSender)
    else if m.nonce != NextNonce(ch.partner) then Refuse(NonceNotSequential)
    else Accept(())
  }
}
