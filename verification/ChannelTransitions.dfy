/**
 What every operation of raiden/transfer/channel.py does to a channel, as functions on values.
 `NettingChannel` proves the in-place operations against these functions.
 */
module ChannelTransitions {
  import opened LockCodec
  import opened LockMaps
  import opened ChannelState
  import opened ChannelValidation

  datatype Event =
    | SendLockedTransfer(lock: Lock, proof: BalanceProof)
    | SendUnlock(secrethash: Hash, proof: BalanceProof)
    | SendLockExpired(secrethash: Hash, proof: BalanceProof)
    | SendWithdrawRequest(total: int, nonce: nat, expiration: int, coopSettle: bool)
    | SendWithdrawConfirmation(total: int, nonce: nat, expiration: int)
    | SendWithdrawExpired(total: int, nonce: nat, expiration: int)
    | SendProcessed
    | ContractSendClose(closing: Option<BalanceProof>)
    | ContractSendUpdate(proof: BalanceProof, expiration: int)
    | ContractSendSettle
    | ContractSendBatchUnlock
    | ContractSendWithdraw(total: int, expiration: int)
    | ContractSendCoopSettle(our: int, partner: int, expiration: int)
    | Invalid(reason: Reason)

  datatype Next = Next(channel: Channel, events: seq<Event>)

  /** The channel is dropped from the state once nothing is left to do for it. */
  datatype Final = Final(channel: Option<Channel>, events: seq<Event>)

  // ---------- updates of one end ----------

  /** An end with a new balance proof and a new list of pending locks. */
  function WithProof(e: End, proof: BalanceProof, pending: seq<Bytes>): End
  {
    e.(balanceProof := Some(proof), nonce := proof.nonce, pendingLocks := pending)
  }

  function AddLock(e: End, lock: Lock): End
  {
    e.(locked := e.locked[lock.secrethash := lock])
  }

  function DelLock(e: End, h: Hash): End
  {
    e.(locked := Without(e.locked, h), unlocked := Without(e.unlocked, h), onchain := Without(e.onchain, h))
  }

  /** `_del_unclaimed_lock` leaves the on-chain map alone. */
  function DelUnclaimedLock(e: End, h: Hash): End
  {
    e.(locked := Without(e.locked, h), unlocked := Without(e.unlocked, h))
  }

  // ---------- sending ----------

  function OwnProof(ch: Channel, transferred: int, lockedAmount: int, pending: seq<Bytes>): BalanceProof
  {
    BalanceProof(NextNonce(ch.our), transferred, lockedAmount, Locksroot(ch.keccak, pending), ch.id, None)
  }

  /** The assertions of `create_sendlockedtransfer`, and the nonce bound of the balance proof. */
  predicate CanSendTransfer(ch: Channel, lock: Lock)
  {
    lock.amount <= Distributable(ch.our, ch.partner)
    && GetStatus(ch) == Opened
    && Encode(lock) !in ch.our.pendingLocks
    && Transferred(ch.our) + lock.amount <= UINT256_MAX
    && NextNonce(ch.our) <= UINT64_MAX
  }

  function SendTransfer(ch: Channel, lock: Lock): Next
    requires CanSendTransfer(ch, lock)
  {
    var pending := ch.our.pendingLocks + [Encode(lock)];
    var proof := OwnProof(ch, Transferred(ch.our), AmountLocked(ch.our) + lock.amount, pending);
    Next(ch.(our := AddLock(WithProof(ch.our, proof, pending), lock)), [SendLockedTransfer(lock, proof)])
  }

  /** The assertions of `send_unlock` and `create_unlock`. */
  predicate CanSendUnlock(ch: Channel, h: Hash, block: nat)
  {
    var lock := GetLock(ch.our, h);
    lock.Some?
    && IsLockPending(ch.our, lock.value.secrethash)
    && GetStatus(ch) == Opened
    && !IsLockExpired(ch.our, lock.value, block, lock.value.expiration)
    && ch.our.balanceProof.Some?
    && Encode(lock.value) in ch.our.pendingLocks
    && NextNonce(ch.our) <= UINT64_MAX
  }

  function SendUnlockFor(ch: Channel, h: Hash, block: nat): Next
    requires CanSendUnlock(ch, h, block)
  {
    var lock := GetLock(ch.our, h).value;
    var pending := RemoveFirst(ch.our.pendingLocks, Encode(lock));
    var proof := OwnProof(ch, Transferred(ch.our) + lock.amount, AmountLocked(ch.our) - lock.amount, pending);
    Next(ch.(our := DelLock(WithProof(ch.our, proof, pending), lock.secrethash)), [SendUnlock(h, proof)])
  }

  predicate CanSendLockExpired(ch: Channel)
  {
    GetStatus(ch) == Opened && ch.our.balanceProof.Some? && NextNonce(ch.our) <= UINT64_MAX
  }

  function SendLockExpiredFor(ch: Channel, lock: Lock): Next
    requires CanSendLockExpired(ch)
  {
    if Encode(lock) !in ch.our.pendingLocks then Next(ch, []) else
    var pending := RemoveFirst(ch.our.pendingLocks, Encode(lock));
    var proof := OwnProof(ch, Transferred(ch.our), AmountLocked(ch.our) - lock.amount, pending);
    Next(ch.(our := DelUnclaimedLock(WithProof(ch.our, proof, pending), lock.secrethash)),
         [SendLockExpired(lock.secrethash, proof)])
  }

  // ---------- receiving envelopes ----------

  function ReceiveTransfer(ch: Channel, m: Transfer): Next
  {
    match CheckTransfer(ch, m.proof, m.lock)
    case Refuse(reason) => Next(ch, [Invalid(reason)])
    case Accept(pending) =>
      Next(ch.(partner := AddLock(WithProof(ch.partner, m.proof, pending), m.lock)), [SendProcessed])
  }

  function ReceiveRefund(ch: Channel, m: Transfer, original: Transfer): Next
  {
    match CheckRefund(ch, m, original)
    case Refuse(reason) => Next(ch, [Invalid(reason)])
    case Accept(pending) =>
      Next(ch.(partner := AddLock(WithProof(ch.partner, m.proof, pending), m.lock)), [SendProcessed])
  }

  function ReceiveUnlock(ch: Channel, m: UnlockMsg): Next
  {
    match CheckUnlock(ch, m)
    case Refuse(reason) => Next(ch, [Invalid(reason)])
    case Accept(pending) =>
      Next(ch.(partner := DelLock(WithProof(ch.partner, m.proof, pending), m.secrethash)), [SendProcessed])
  }

  function ReceiveLockExpired(ch: Channel, m: LockExpiredMsg, block: nat): Next
  {
    match CheckLockExpired(ch, m, block)
    case Refuse(reason) => Next(ch, [Invalid(reason)])
    case Accept(pending) =>
      Next(ch.(partner := DelUnclaimedLock(WithProof(ch.partner, m.proof, pending), m.secrethash)),
           [SendProcessed])
  }

  // ---------- secrets ----------

  function RegisterSecretEnd(e: End, secret: Bytes, h: Hash): End
  {
    if h !in e.locked then e
    else e.(locked := Without(e.locked, h), unlocked := e.unlocked[h := UnlockProof(e.locked[h], secret)])
  }

  function RegisterSecret(ch: Channel, secret: Bytes, h: Hash): Channel
  {
    ch.(our := RegisterSecretEnd(ch.our, secret, h), partner := RegisterSecretEnd(ch.partner, secret, h))
  }

  function RegisterOnchainEnd(e: End, secret: Bytes, h: Hash, revealBlock: nat, deleteLock: bool): End
  {
    if h !in e.locked && h !in e.unlocked then e else
    var lock := if h in e.unlocked then e.unlocked[h].lock else e.locked[h];
    if lock.expiration < revealBlock then e else
    var rest := if deleteLock then DelLock(e, h) else e;
    rest.(onchain := rest.onchain[h := UnlockProof(lock, secret)])
  }

  function RegisterOnchainSecret(
    ch: Channel, secret: Bytes, h: Hash, revealBlock: nat, deleteLock: bool): Channel
  {
    ch.(our := RegisterOnchainEnd(ch.our, secret, h, revealBlock, deleteLock),
        partner := RegisterOnchainEnd(ch.partner, secret, h, revealBlock, deleteLock))
  }

  // ---------- withdraws ----------

  function SendWithdraw(ch: Channel, total: int, expiration: int, coopSettle: bool): Next
  {
    if !PriorToClosed(ch) then Next(ch, []) else
    var w := Withdraw(total, expiration, NextNonce(ch.our));
    var our := ch.our.(nonce := w.nonce, withdrawsPending := PutWithdraw(ch.our.withdrawsPending, w));
    Next(ch.(our := our), [SendWithdrawRequest(total, w.nonce, expiration, coopSettle)])
  }

  function ActionWithdraw(ch: Channel, total: int, block: nat): Next
  {
    match CheckTotalWithdraw(ch, total, false)
    case Refuse(reason) => Next(ch, [Invalid(reason)])
    case Accept(_) => SendWithdraw(ch, total, SafeInitialExpiration(block, ch.revealTimeout), false)
  }

  function ActionCoopSettle(ch: Channel, block: nat): Next
  {
    var total := MaxWithdraw(ch.our, ch.partner);
    match CheckCoopSettle(ch, total)
    case Refuse(reason) => Next(ch, [Invalid(reason)])
    case Accept(_) =>
      var expiration := SafeInitialExpiration(block, ch.revealTimeout);
      var coop := CoopSettle(total, MaxWithdraw(ch.partner, ch.our), expiration, false, false, None);
      SendWithdraw(ch.(our := ch.our.(coopSettle := Some(coop))), total, expiration, true)
  }

  function SetRevealTimeout(ch: Channel, revealTimeout: nat): Next
  {
    if revealTimeout >= 7 && ch.settleTimeout >= revealTimeout * 2
    then Next(ch.(revealTimeout := revealTimeout), [])
    else Next(ch, [Invalid(InvalidRevealTimeout)])
  }

  /** `events_for_coop_settle` for the settlement we initiated. */
  function SendCoopSettle(ch: Channel, block: nat): Next
    requires ch.our.coopSettle.Some?
  {
    var coop := ch.our.coopSettle.value;
    if coop.requestSigned && coop.confirmationSigned && coop.expiration >= block - ch.revealTimeout then
      Next(ch.(our := ch.our.(coopSettle := Some(coop.(tx := Some(TxStatus(Some(block), None, None)))))),
           [ContractSendCoopSettle(coop.totalInitiator, coop.totalPartner, coop.expiration)])
    else Next(ch, [])
  }

  /** The partner end once the request is known to be well formed. */
  function RecordRequest(ch: Channel, m: WithdrawMsg): Channel
  {
    ch.(partner := ch.partner.(
      withdrawsPending := PutWithdraw(ch.partner.withdrawsPending, Withdraw(m.total, m.expiration, m.nonce)),
      nonce := m.nonce))
  }

  /** The cooperative-settle conditions, tested only after the request has been recorded. */
  function CheckRequestUnderCoopSettle(ch: Channel, m: WithdrawMsg): Check
  {
    if ch.our.coopSettle.None? && !m.coopSettle then Accept(())
    else if MaxWithdraw(ch.partner, ch.our) != m.total then Refuse(NotMaximumWithdraw)
    else if |ch.partner.pendingLocks| > 0 then Refuse(PartnerPendingLocks)
    else if ch.our.coopSettle.Some? then
      if ch.our.coopSettle.value.expiration != m.expiration then Refuse(WrongExpiration) else Accept(())
    else if |ch.our.pendingLocks| > 0 then Refuse(OurPendingLocks)
    else Accept(())
  }

  /** The assertion made when the partner answers a settlement we initiated. */
  predicate RequestMatchesCoopSettle(ch: Channel, m: WithdrawMsg)
  {
    CheckWithdrawRequest(ch, m).Accept? && ch.our.coopSettle.Some?
    && CheckRequestUnderCoopSettle(RecordRequest(ch, m), m).Accept?
    ==> ch.our.coopSettle.value.totalPartner == m.total
  }

  /** The steps between recording the request and confirming it. */
  function JoinCoopSettle(ch: Channel, m: WithdrawMsg, block: nat): Next
  {
    if ch.our.coopSettle.Some? then
      SendCoopSettle(ch.(our := ch.our.(coopSettle := Some(ch.our.coopSettle.value.(requestSigned := true)))), block)
    else if m.coopSettle then
      var total := MaxWithdraw(ch.our, ch.partner);
      var coop := CoopSettle(m.total, total, m.expiration, true, false, None);
      var sent := SendWithdraw(ch.(partner := ch.partner.(coopSettle := Some(coop))), total, m.expiration, false);
      // `events.extend(events)` doubles the list
      Next(sent.channel, sent.events + sent.events)
    else Next(ch, [])
  }

  function ReceiveWithdrawRequest(ch: Channel, m: WithdrawMsg, block: nat): Next
    requires RequestMatchesCoopSettle(ch, m)
  {
    match CheckWithdrawRequest(ch, m)
    case Refuse(reason) => Next(ch, [Invalid(reason)])
    case Accept(_) =>
      var recorded := RecordRequest(ch, m);
      match CheckRequestUnderCoopSettle(recorded, m)
      case Refuse(reason) => Next(recorded, [Invalid(reason)])
      case Accept(_) =>
        var joined := JoinCoopSettle(recorded, m, block);
        var nonce := NextNonce(joined.channel.our);
        Next(joined.channel.(our := joined.channel.our.(nonce := nonce)),
             joined.events + [SendWithdrawConfirmation(m.total, nonce, m.expiration)])
  }

  /** At most one side may have initiated a cooperative settlement. */
  predicate OneCoopSettle(ch: Channel)
  {
    ch.our.coopSettle.None? || ch.partner.coopSettle.None?
  }

  function ReceiveWithdrawConfirmation(ch: Channel, m: WithdrawMsg, block: nat): Next
    requires CheckWithdrawConfirmation(ch, m).Accept? ==> OneCoopSettle(ch)
  {
    match CheckWithdrawConfirmation(ch, m)
    case Refuse(reason) => Next(ch, [Invalid(reason)])
    case Accept(_) =>
      var noted := ch.(partner := ch.partner.(nonce := m.nonce));
      if ch.our.coopSettle.Some? then
        var coop := ch.our.coopSettle.value.(confirmationSigned := true);
        var sent := SendCoopSettle(noted.(our := noted.our.(coopSettle := Some(coop))), block);
        Next(sent.channel, [SendProcessed] + sent.events)
      else if ch.partner.coopSettle.None? && m.expiration >= block - ch.revealTimeout then
        Next(noted, [SendProcessed, ContractSendWithdraw(m.total, m.expiration)])
      else Next(noted, [SendProcessed])
  }

  /** A cooperative settlement ends with the withdraw it was announced by. */
  function ExpireCoopSettle(coop: Option<CoopSettle>, w: Withdraw): Option<CoopSettle>
  {
    if coop.Some? && coop.value.totalInitiator == w.total && coop.value.expiration == w.expiration
    then None else coop
  }

  function ReceiveWithdrawExpired(ch: Channel, m: WithdrawExpiredMsg, block: nat): Next
  {
    match CheckWithdrawExpired(ch, m, block)
    case Refuse(reason) => Next(ch, [Invalid(reason)])
    case Accept(_) =>
      var w := FindWithdraw(ch.partner.withdrawsPending, m.total).value;
      var partner := ch.partner.(
        withdrawsPending := DropWithdraw(ch.partner.withdrawsPending, m.total),
        nonce := m.nonce,
        coopSettle := ExpireCoopSettle(ch.partner.coopSettle, w));
      Next(ch.(partner := partner), [SendProcessed])
  }

  predicate WithdrawIsExpired(w: Withdraw, block: nat)
  {
    block >= SenderThreshold(w.expiration)
  }

  /** One turn of the loop in `events_for_expired_withdraws`. */
  function ExpireOne(e: End, w: Withdraw): End
  {
    e.(nonce := NextNonce(e),
       coopSettle := ExpireCoopSettle(e.coopSettle, w),
       withdrawsExpired := e.withdrawsExpired + [w],
       withdrawsPending := DropWithdraw(e.withdrawsPending, w.total))
  }

  datatype Expiry = Expiry(end: End, events: seq<Event>)

  /** The withdraws of `ws` are expired one after another, up to the first that is still live. */
  function ExpireWithdraws(e: End, ws: seq<Withdraw>, block: nat): Expiry
    decreases ws
  {
    if ws == [] || !WithdrawIsExpired(ws[0], block) then Expiry(e, [])
    else
      var e' := ExpireOne(e, ws[0]);
      var rest := ExpireWithdraws(e', ws[1..], block);
      Expiry(rest.end, [SendWithdrawExpired(ws[0].total, e'.nonce, ws[0].expiration)] + rest.events)
  }

  // ---------- life cycle ----------

  function ActionClose(ch: Channel, block: nat): Next
  {
    if !PriorToClosed(ch) then Next(ch, [])
    else Next(ch.(close := Some(TxStatus(Some(block), None, None))), [ContractSendClose(ch.partner.balanceProof)])
  }

  /** The assertions of `_handle_block`: a closed channel knows the block it was closed at. */
  predicate CloseRecorded(ch: Channel)
  {
    GetStatus(ch) == Closed ==> ch.close.value.finished.Some? && ch.close.value.finished.value > 0
  }

  function HandleBlock(ch: Channel, block: nat): Next
    requires CloseRecorded(ch)
  {
    var expiry := if GetStatus(ch) == Opened
                  then ExpireWithdraws(ch.our, ch.our.withdrawsPending, block) else Expiry(ch.our, []);
    var ch1 := ch.(our := expiry.end);
    if GetStatus(ch) == Closed && block > ch.close.value.finished.value + ch.settleTimeout then
      Next(ch1.(settle := Some(TxStatus(Some(block), None, None))), expiry.events + [ContractSendSettle])
    else Next(ch1, expiry.events)
  }

  /** `set_closed` and `set_settled`. Decoded events never carry block 0. */
  function Finish(tx: Option<TxStatus>, block: nat): TxStatus
  {
    if tx.None? then TxStatus(None, Some(block), Some(Success))
    else if tx.value.finished.None? || tx.value.finished.value == 0
    then tx.value.(finished := Some(block), result := Some(Success))
    else tx.value
  }

  function ChannelClosed(ch: Channel, id: nat, closer: Address, block: nat): Next
    requires block > 0
  {
    if id != ch.id.channel || !PriorToClosed(ch) then Next(ch, []) else
    var ch1 := ch.(close := Some(Finish(ch.close, block)));
    if closer != ch.our.address && ch.partner.balanceProof.Some? && ch.update.None? then
      Next(ch1.(update := Some(TxStatus(Some(block), None, None))),
           [ContractSendUpdate(ch.partner.balanceProof.value, block + ch.settleTimeout)])
    else Next(ch1, [])
  }

  function UpdatedTransfer(ch: Channel, id: nat, block: nat): Next
  {
    if id != ch.id.channel then Next(ch, [])
    else Next(ch.(update := Some(TxStatus(None, Some(block), Some(Success)))), [])
  }

  datatype SettledMsg = SettledMsg(id: nat, block: nat, ourLocksroot: Hash, partnerLocksroot: Hash)

  /**
   A settlement that leaves no locks behind drops the channel, and with it whatever the handler
   first wrote into a cooperative settlement.
   */
  function ChannelSettled(ch: Channel, m: SettledMsg): Final
  {
    var none := NoLocksRoot(ch.keccak);
    if m.id != ch.id.channel then Final(Some(ch), [])
    else if m.ourLocksroot == none && m.partnerLocksroot == none then Final(None, [])
    else
      var settled := ch.(
        settle := Some(Finish(ch.settle, m.block)),
        our := ch.our.(onchainLocksroot := m.ourLocksroot),
        partner := ch.partner.(onchainLocksroot := m.partnerLocksroot));
      Final(Some(settled), [ContractSendBatchUnlock])
  }

  function BatchUnlock(ch: Channel, sender: Address): Final
  {
    if GetStatus(ch) != Settled then Final(Some(ch), []) else
    var none := NoLocksRoot(ch.keccak);
    var ch1 := if sender == ch.our.address then ch.(our := ch.our.(onchainLocksroot := none))
               else if sender == ch.partner.address then ch.(partner := ch.partner.(onchainLocksroot := none))
               else ch;
    if ch1.our.onchainLocksroot == none && ch1.partner.onchainLocksroot == none
    then Final(None, []) else Final(Some(ch1), [])
  }

  function Deposit(ch: Channel, participant: Address, balance: nat): Channel
  {
    if participant == ch.our.address then
      ch.(our := ch.our.(contractBalance := Max(balance, ch.our.contractBalance)))
    else if participant == ch.partner.address then
      ch.(partner := ch.partner.(contractBalance := Max(balance, ch.partner.contractBalance)))
    else ch
  }

  function WithdrawnOnchain(e: End, total: nat): End
  {
    e.(withdrawsPending := DropWithdraw(e.withdrawsPending, total), onchainTotalWithdraw := total)
  }

  function ChannelWithdraw(ch: Channel, participant: Address, total: nat): Channel
  {
    if participant == ch.our.address then ch.(our := WithdrawnOnchain(ch.our, total))
    else if participant == ch.partner.address then ch.(partner := WithdrawnOnchain(ch.partner, total))
    else ch
  }
}
