/**
 Whose word is taken. Every message a channel acts on is signed by its partner and made out for
 this channel, and so is everything it takes to the contract.
 */
module Authenticity {
  import opened LockCodec
  import opened LockMaps
  import opened ChannelState
  import opened ChannelValidation
  import opened ChannelTransitions
  import opened ChannelRuns
  import opened Nonces
  import opened Lifecycle

  predicate AuthenticProof(ch: Channel, p: BalanceProof)
  {
    p.signer == Some(ch.partner.address) && p.id == ch.id && p.transferred + p.lockedAmount <= UINT256_MAX
  }

  /** What acceptance establishes, message by message. */
  predicate Authentic(ch: Channel, s: Step)
  {
    match s
    case GotTransfer(m) => AuthenticProof(ch, m.proof)
    case GotRefund(m, original) =>
      AuthenticProof(ch, m.proof) && m.lock == original.lock && m.paymentId == original.paymentId
    case GotUnlock(m) => AuthenticProof(ch, m.proof)
    case GotLockExpired(m, _) => AuthenticProof(ch, m.proof)
    case GotWithdrawRequest(m, _) =>
      m.id == ch.id && m.sender == m.participant == ch.partner.address && m.signer == Some(ch.partner.address)
    case GotWithdrawConfirmation(m, _) =>
      m.id == ch.id && m.sender == ch.partner.address && m.signer == Some(ch.partner.address)
      && m.participant == ch.our.address && m.total == TotalWithdraw(ch.our)
    case GotWithdrawExpired(m, block) =>
      m.id == ch.id && m.sender == ch.partner.address
      && exists w :: w in ch.partner.withdrawsPending && w.total == m.total && block >= ReceiverThreshold(w.expiration)
    case _ => true
  }

  lemma AcceptedAuthentic(ch: Channel, s: Step)
    requires Accepted(ch, s)
    ensures Authentic(ch, s)
    ensures s.GotTransfer? || s.GotRefund? || s.GotUnlock? || s.GotLockExpired? ==> GetStatus(ch) == Opened
  {
    hide AmountLocked, CurrentLocked, Encode, Locksroot, RemoveFirst, GetLock, IsLockExpired, IsLockPending,
      Distributable, LocksWith, LocksWithout, Balance, TotalWithdraw;
    if s.GotWithdrawExpired? {
      var w := FindWithdraw(ch.partner.withdrawsPending, s.withdrawExpired.total).value;
      assert w in ch.partner.withdrawsPending && w.total == s.withdrawExpired.total;
    }
  }

  /** Nothing renames the parties or the channel. */
  predicate SameIdentity(ch: Channel, ch': Channel)
  {
    ch'.id == ch.id && ch'.partner.address == ch.partner.address && ch'.our.address == ch.our.address
  }

  predicate IsEnvelopeStep(s: Step)
  {
    s.DoSendTransfer? || s.DoSendUnlock? || s.DoSendLockExpired? || s.GotTransfer? || s.GotRefund? || s.GotUnlock?
    || s.GotLockExpired? || s.SecretRevealed? || s.SecretRegistered?
  }

  lemma EnvelopeKeepsIdentity(ch: Channel, s: Step)
    requires IsEnvelopeStep(s) && Allowed(ch, s) && Apply(ch, s).channel.Some?
    ensures SameIdentity(ch, Apply(ch, s).channel.value)
  {
    hide CheckTransfer, CheckRefund, CheckUnlock, CheckLockExpired, CheckTotalWithdraw, CheckCoopSettle,
      CheckWithdrawRequest, CheckWithdrawConfirmation, CheckWithdrawExpired, CheckRequestUnderCoopSettle,
      ExpireWithdraws, NoLocksRoot, MaxWithdraw, PutWithdraw, DropWithdraw, FindWithdraw, GetStatus, Finish,
      Without, AmountLocked, Locksroot, RemoveFirst, GetLock, CanSendTransfer, CanSendUnlock, TotalWithdraw, Transferred,
      Encode, NextNonce, RequestMatchesCoopSettle, CloseRecorded,
      ActionWithdraw, ActionCoopSettle, ReceiveWithdrawRequest, ReceiveWithdrawConfirmation, ReceiveWithdrawExpired,
      HandleBlock, ActionClose, ChannelClosed, UpdatedTransfer, ChannelSettled, BatchUnlock, Deposit, ChannelWithdraw,
      SetRevealTimeout;
  }

  lemma OtherKeepsIdentity(ch: Channel, s: Step)
    requires !IsEnvelopeStep(s) && Allowed(ch, s) && Apply(ch, s).channel.Some?
    ensures SameIdentity(ch, Apply(ch, s).channel.value)
  {
    hide CheckTransfer, CheckRefund, CheckUnlock, CheckLockExpired, CheckTotalWithdraw, CheckCoopSettle,
      CheckWithdrawRequest, CheckWithdrawConfirmation, CheckWithdrawExpired, CheckRequestUnderCoopSettle,
      ExpireWithdraws, NoLocksRoot, MaxWithdraw, PutWithdraw, DropWithdraw, FindWithdraw, GetStatus, Finish,
      Without, AmountLocked, Locksroot, RemoveFirst, GetLock, CanSendTransfer, CanSendUnlock, TotalWithdraw, Transferred,
      Encode, NextNonce, RequestMatchesCoopSettle, CloseRecorded,
      SendTransfer, SendUnlockFor, SendLockExpiredFor, ReceiveTransfer, ReceiveRefund, ReceiveUnlock,
      ReceiveLockExpired, RegisterSecret, RegisterOnchainSecret;
    if s.NewBlock? {
      ExpireWithdrawsFrame(ch.our, ch.our.withdrawsPending, s.block);
    }
  }

  lemma IdentityKept(ch: Channel, s: Step)
    requires Allowed(ch, s) && Apply(ch, s).channel.Some?
    ensures SameIdentity(ch, Apply(ch, s).channel.value)
  {
    hide Apply, Allowed, IsEnvelopeStep, SameIdentity;
    if IsEnvelopeStep(s) {
      EnvelopeKeepsIdentity(ch, s);
    } else {
      OtherKeepsIdentity(ch, s);
    }
  }

  predicate HoldsAuthentic(ch: Channel)
  {
    ch.partner.balanceProof.Some? ==> AuthenticProof(ch, ch.partner.balanceProof.value)
  }

  lemma StepHoldsAuthentic(ch: Channel, s: Step)
    requires HoldsAuthentic(ch) && Allowed(ch, s) && Apply(ch, s).channel.Some?
    ensures HoldsAuthentic(Apply(ch, s).channel.value)
  {
    hide Apply, Allowed, Accepted, GetStatus;
    ProofChanges(ch, s);
    IdentityKept(ch, s);
    if AcceptedProof(ch, s).Some? { AcceptedAuthentic(ch, s); }
  }

  /** Over every run: each proof handed to the contract is one the partner signed for this channel. */
  lemma {:induction false} RunSubmitsAuthentic(ch: Channel, steps: seq<Step>, e: Event)
    requires HoldsAuthentic(ch) && IsRun(ch, steps)
    requires e in Emitted(ch, steps) && Submitted(e).Some? && Submitted(e).value.Some?
    ensures AuthenticProof(ch, Submitted(e).value.value)
    decreases steps
  {
    hide Apply, Allowed, Submitted, HoldsAuthentic;
    var r := Apply(ch, steps[0]);
    if e in r.events {
      ProofSubmitted(ch, steps[0], e);
      HoldsUnfolded(ch);
    } else {
      StepHoldsAuthentic(ch, steps[0]);
      IdentityKept(ch, steps[0]);
      RunSubmitsAuthentic(r.channel.value, steps[1..], e);
    }
  }

  lemma HoldsUnfolded(ch: Channel)
    requires HoldsAuthentic(ch) && ch.partner.balanceProof.Some?
    ensures AuthenticProof(ch, ch.partner.balanceProof.value)
  {
  }

  // ---------- withdraws and cooperative settlements ----------

  /** A withdraw goes on-chain only with the partner's confirmation, and outside any settlement. */
  lemma WithdrawSentConfirmed(ch: Channel, s: Step, total: int, expiration: int)
    requires Allowed(ch, s) && ContractSendWithdraw(total, expiration) in Apply(ch, s).events
    ensures s.GotWithdrawConfirmation? && Accepted(ch, s)
    ensures s.withdraw.total == total == TotalWithdraw(ch.our) && s.withdraw.expiration == expiration
    ensures s.withdraw.signer == Some(ch.partner.address)
    ensures ch.our.coopSettle.None? && ch.partner.coopSettle.None? && expiration >= s.block - ch.revealTimeout
  {
    hide CheckTransfer, CheckRefund, CheckUnlock, CheckLockExpired, CheckTotalWithdraw, CheckCoopSettle,
      CheckWithdrawRequest, CheckWithdrawConfirmation, CheckWithdrawExpired, CheckRequestUnderCoopSettle,
      ExpireWithdraws, NoLocksRoot, MaxWithdraw, PutWithdraw, DropWithdraw, FindWithdraw, GetStatus, Finish,
      Without, AmountLocked, Locksroot, RemoveFirst, GetLock, CanSendTransfer, CanSendUnlock, TotalWithdraw;
    if s.NewBlock? {
      ExpirySendsOnlyExpired(ch.our, ch.our.withdrawsPending, s.block);
    } else if s.GotWithdrawConfirmation? && Accepted(ch, s) {
      AcceptedAuthentic(ch, s);
    }
  }

  /** A cooperative settlement goes on-chain only with both signatures of the partner. */
  lemma CoopSettleSentSigned(ch: Channel, s: Step, our: int, partner: int, expiration: int)
    requires Allowed(ch, s) && ContractSendCoopSettle(our, partner, expiration) in Apply(ch, s).events
    ensures Accepted(ch, s) && (s.GotWithdrawRequest? || s.GotWithdrawConfirmation?)
    ensures ch.our.coopSettle.Some?
    ensures var coop := ch.our.coopSettle.value;
      our == coop.totalInitiator && partner == coop.totalPartner && expiration == coop.expiration
      && (s.GotWithdrawRequest? ==> coop.confirmationSigned && s.withdraw.total == partner)
      && (s.GotWithdrawConfirmation? ==> coop.requestSigned)
  {
    hide CheckTransfer, CheckRefund, CheckUnlock, CheckLockExpired, CheckTotalWithdraw, CheckCoopSettle,
      CheckWithdrawRequest, CheckWithdrawConfirmation, CheckWithdrawExpired, CheckRequestUnderCoopSettle,
      ExpireWithdraws, NoLocksRoot, MaxWithdraw, PutWithdraw, DropWithdraw, FindWithdraw, GetStatus, Finish,
      Without, AmountLocked, Locksroot, RemoveFirst, GetLock, CanSendTransfer, CanSendUnlock;
    if s.NewBlock? {
      ExpirySendsOnlyExpired(ch.our, ch.our.withdrawsPending, s.block);
    }
  }

  /** A settlement that the partner starts pays out both deposits, and is answered with our own share. */
  lemma JoinedCoopSettlePaysAll(ch: Channel, m: WithdrawMsg, block: nat)
    requires CheckWithdrawRequest(ch, m).Accept? && m.coopSettle && ch.our.coopSettle.None?
    requires CheckRequestUnderCoopSettle(RecordRequest(ch, m), m).Accept?
    ensures var r := ReceiveWithdrawRequest(ch, m, block); var coop := r.channel.partner.coopSettle;
      coop.Some? && coop.value.totalInitiator == m.total
      && m.total + coop.value.totalPartner == ch.our.contractBalance + ch.partner.contractBalance
      && (PriorToClosed(ch) ==>
          SendWithdrawRequest(coop.value.totalPartner, NextNonce(ch.our), m.expiration, false) in r.events)
  {
    hide CheckWithdrawRequest, PutWithdraw;
    var events := ReceiveWithdrawRequest(ch, m, block).events;
    assert PriorToClosed(ch) ==> |events| == 3 && events[0] in events;
  }
}
