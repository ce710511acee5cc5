/**
 Which steps keep the lock accounting: exactly the ones that respect `LockDiscipline`. Hence every
 run that respects it keeps both ends accounted and free of overflow.
 */
module AccountedRuns {
  import opened LockCodec
  import opened LockMaps
  import opened ChannelState
  import opened ChannelValidation
  import opened ChannelTransitions
  import opened ChannelRuns
  import opened LockAccounting

  ghost predicate BothAccounted(ch: Channel)
  {
    Accounted(ch.keccak, ch.our) && Accounted(ch.keccak, ch.partner)
  }

  /**
   What the channel leaves to its callers. `compute_locks_with` only refuses an identical encoding,
   so a secrethash must not be reused while it is pending; and `_del_unclaimed_lock` does not look
   at the on-chain map, so a lock registered there must not be expired.
   */
  predicate LockDiscipline(ch: Channel, s: Step)
  {
    match s
    case DoSendTransfer(lock) => !IsLockPending(ch.our, lock.secrethash)
    case DoSendLockExpired(lock) => Encode(lock) in ch.our.pendingLocks ==> lock.secrethash !in ch.our.onchain
    case GotTransfer(m) => CheckTransfer(ch, m.proof, m.lock).Accept? ==> !IsLockPending(ch.partner, m.lock.secrethash)
    case GotRefund(m, original) => CheckRefund(ch, m, original).Accept? ==> !IsLockPending(ch.partner, m.lock.secrethash)
    case _ => true
  }

  // ---------- adding a lock ----------

  lemma ReuseBreaks(keccak: Bytes -> Hash, e: End, proof: BalanceProof, lock: Lock)
    requires Accounted(keccak, e) && IsLockPending(e, lock.secrethash) && Encode(lock) !in e.pendingLocks
    ensures !Accounted(keccak, AddLock(WithProof(e, proof, e.pendingLocks + [Encode(lock)]), lock))
  {
    var e1 := WithProof(e, proof, e.pendingLocks + [Encode(lock)]);
    var e2 := AddLock(e1, lock);
    hide AmountLocked, ProofMatches;
    if lock.secrethash in e.locked {
      assert AllLocks(e2) == AllLocks(e)[lock.secrethash := lock];
      OverwriteBreaks(AllLocks(e), e.pendingLocks, lock);
    } else {
      assert lock.secrethash in e2.locked;
    }
  }

  lemma AddAccounted(keccak: Bytes -> Hash, e: End, proof: BalanceProof, lock: Lock)
    requires Accounted(keccak, e) && Encode(lock) !in e.pendingLocks
    requires proof.lockedAmount == AmountLocked(e) + lock.amount
    requires proof.locksroot == Locksroot(keccak, e.pendingLocks + [Encode(lock)])
    ensures Accounted(keccak, AddLock(WithProof(e, proof, e.pendingLocks + [Encode(lock)]), lock))
       <==> !IsLockPending(e, lock.secrethash)
  {
    if IsLockPending(e, lock.secrethash) {
      ReuseBreaks(keccak, e, proof, lock);
    } else {
      AccountedAdd(keccak, e, proof, lock);
    }
  }

  lemma SendTransferAccounted(ch: Channel, lock: Lock)
    requires BothAccounted(ch) && CanSendTransfer(ch, lock)
    ensures BothAccounted(SendTransfer(ch, lock).channel) <==> !IsLockPending(ch.our, lock.secrethash)
  {
    hide Accounted, Distributable, IsLockPending;
    var pending := ch.our.pendingLocks + [Encode(lock)];
    var proof := OwnProof(ch, Transferred(ch.our), AmountLocked(ch.our) + lock.amount, pending);
    AddAccounted(ch.keccak, ch.our, proof, lock);
  }

  lemma AcceptedTransferAccounted(ch: Channel, proof: BalanceProof, lock: Lock)
    requires BothAccounted(ch) && CheckTransfer(ch, proof, lock).Accept?
    ensures CheckTransfer(ch, proof, lock).value == ch.partner.pendingLocks + [Encode(lock)]
    ensures Accounted(ch.keccak, AddLock(WithProof(ch.partner, proof, ch.partner.pendingLocks + [Encode(lock)]), lock))
       <==> !IsLockPending(ch.partner, lock.secrethash)
  {
    hide Accounted, Distributable, IsLockPending, AmountLocked, CurrentLocked, ProofUsable;
    CurrentIsAmount(ch.keccak, ch.partner);
    AddAccounted(ch.keccak, ch.partner, proof, lock);
  }

  // ---------- removing a lock ----------

  lemma SendUnlockAccounted(ch: Channel, h: Hash, block: nat)
    requires BothAccounted(ch) && CanSendUnlock(ch, h, block)
    ensures BothAccounted(SendUnlockFor(ch, h, block).channel)
  {
    hide Accounted, IsLockExpired, AmountLocked, GetLock, IsLockPending, RemoveFirst;
    var lock := GetLock(ch.our, h).value;
    var pending := RemoveFirst(ch.our.pendingLocks, Encode(lock));
    var proof := OwnProof(ch, Transferred(ch.our) + lock.amount, AmountLocked(ch.our) - lock.amount, pending);
    PendingEncoding(ch.keccak, ch.our, h);
    AccountedDel(ch.keccak, ch.our, proof, pending, h);
  }

  /** A pending encoding is the encoding of the lock filed under its secrethash. */
  lemma EncodingIdentifies(keccak: Bytes -> Hash, e: End, lock: Lock)
    requires Accounted(keccak, e) && Encode(lock) in e.pendingLocks
    ensures GetLock(e, lock.secrethash) == Some(lock)
  {
    var h :| h in AllLocks(e) && Encode(AllLocks(e)[h]) == Encode(lock);
    EncodeInjective(AllLocks(e)[h], lock);
    PendingEncoding(keccak, e, h);
  }

  /** Expiring a lock that is registered on-chain strands it: its encoding goes, its entry stays. */
  lemma ExpireOnchainBreaks(keccak: Bytes -> Hash, e: End, proof: BalanceProof, lock: Lock)
    requires Accounted(keccak, e) && GetLock(e, lock.secrethash) == Some(lock) && lock.secrethash in e.onchain
    requires Encode(lock) in e.pendingLocks
    ensures !Accounted(keccak, DelUnclaimedLock(
      WithProof(e, proof, RemoveFirst(e.pendingLocks, Encode(lock))), lock.secrethash))
  {
    hide AmountLocked, ProofMatches;
    var e' := DelUnclaimedLock(WithProof(e, proof, RemoveFirst(e.pendingLocks, Encode(lock))), lock.secrethash);
    RemoveFirstDistinct(e.pendingLocks, Encode(lock));
    assert GetLock(e', lock.secrethash) == Some(lock);
    assert lock.secrethash in AllLocks(e') && AllLocks(e')[lock.secrethash] == lock;
  }

  lemma SendLockExpiredAccounted(ch: Channel, lock: Lock)
    requires BothAccounted(ch) && CanSendLockExpired(ch)
    ensures BothAccounted(SendLockExpiredFor(ch, lock).channel)
       <==> (Encode(lock) in ch.our.pendingLocks ==> lock.secrethash !in ch.our.onchain)
  {
    hide Accounted, AmountLocked, GetLock, IsLockPending, RemoveFirst, GetStatus;
    if Encode(lock) in ch.our.pendingLocks {
      EncodingIdentifies(ch.keccak, ch.our, lock);
      var pending := RemoveFirst(ch.our.pendingLocks, Encode(lock));
      var proof := OwnProof(ch, Transferred(ch.our), AmountLocked(ch.our) - lock.amount, pending);
      AccountedDel(ch.keccak, ch.our, proof, pending, lock.secrethash);
      if lock.secrethash in ch.our.onchain {
        ExpireOnchainBreaks(ch.keccak, ch.our, proof, lock);
      }
    }
  }

  lemma ReceiveUnlockAccounted(ch: Channel, m: UnlockMsg)
    requires BothAccounted(ch)
    ensures BothAccounted(ReceiveUnlock(ch, m).channel)
  {
    hide Accounted, AmountLocked, GetLock, IsLockPending, RemoveFirst, ProofUsable, CurrentLocked;
    if CheckUnlock(ch, m).Accept? {
      CurrentIsAmount(ch.keccak, ch.partner);
      AccountedDel(ch.keccak, ch.partner, m.proof, CheckUnlock(ch, m).value, m.secrethash);
    }
  }

  lemma ReceiveLockExpiredAccounted(ch: Channel, m: LockExpiredMsg, block: nat)
    requires BothAccounted(ch)
    ensures BothAccounted(ReceiveLockExpired(ch, m, block).channel)
  {
    hide Accounted, AmountLocked, RemoveFirst, ProofUsable, CurrentLocked, IsLockExpired;
    if CheckLockExpired(ch, m, block).Accept? {
      CurrentIsAmount(ch.keccak, ch.partner);
      AccountedDel(ch.keccak, ch.partner, m.proof, CheckLockExpired(ch, m, block).value, m.secrethash);
    }
  }

  /** The end has no unclaimed lock for the secret, or only one that had expired. */
  predicate IgnoresSecret(e: End, h: Hash, block: nat)
  {
    && (h in e.unlocked ==> e.unlocked[h].lock.expiration < block)
    && (h in e.locked && h !in e.unlocked ==> e.locked[h].expiration < block)
  }

  /** Registering on-chain without deleting the lock first would file it twice. */
  lemma RegisterOnchainAccounted(ch: Channel, secret: Bytes, h: Hash, block: nat, deleteLock: bool)
    requires BothAccounted(ch)
    ensures BothAccounted(RegisterOnchainSecret(ch, secret, h, block, deleteLock))
       <==> deleteLock || (IgnoresSecret(ch.our, h, block) && IgnoresSecret(ch.partner, h, block))
  {
    AccountedRegister(ch.keccak, ch.our, secret, h, block);
    AccountedRegister(ch.keccak, ch.partner, secret, h, block);
  }

  // ---------- every step ----------

  ghost predicate SameLocks(e: End, e': End)
  {
    e'.locked == e.locked && e'.unlocked == e.unlocked && e'.onchain == e.onchain
    && e'.balanceProof == e.balanceProof && e'.pendingLocks == e.pendingLocks
  }

  lemma SameLocksAccounted(keccak: Bytes -> Hash, e: End, e': End)
    requires SameLocks(e, e')
    ensures Accounted(keccak, e') <==> Accounted(keccak, e)
    ensures AmountLocked(e') == AmountLocked(e) && Transferred(e') == Transferred(e)
    ensures AllLocks(e') == AllLocks(e)
  {
    hide SumAmounts, Indexed;
    UnionUnchanged(e, e');
  }

  predicate TouchesLocks(s: Step)
  {
    s.DoSendTransfer? || s.DoSendUnlock? || s.DoSendLockExpired? || s.GotTransfer? || s.GotRefund?
    || s.GotUnlock? || s.GotLockExpired? || s.SecretRevealed? || s.SecretRegistered?
  }

  ghost predicate SameBothLocks(ch: Channel, ch': Channel)
  {
    SameLocks(ch.our, ch'.our) && SameLocks(ch.partner, ch'.partner) && ch'.keccak == ch.keccak
  }

  lemma JoinKeepsLocks(ch: Channel, m: WithdrawMsg, block: nat)
    ensures SameBothLocks(ch, JoinCoopSettle(ch, m, block).channel)
  {
    hide PutWithdraw, MaxWithdraw, PriorToClosed;
  }

  lemma RequestKeepsLocks(ch: Channel, m: WithdrawMsg, block: nat)
    requires RequestMatchesCoopSettle(ch, m)
    ensures SameBothLocks(ch, ReceiveWithdrawRequest(ch, m, block).channel)
  {
    hide CheckWithdrawRequest, CheckRequestUnderCoopSettle, PutWithdraw, JoinCoopSettle;
    JoinKeepsLocks(RecordRequest(ch, m), m, block);
  }

  lemma ConfirmationKeepsLocks(ch: Channel, m: WithdrawMsg, block: nat)
    requires CheckWithdrawConfirmation(ch, m).Accept? ==> OneCoopSettle(ch)
    ensures SameBothLocks(ch, ReceiveWithdrawConfirmation(ch, m, block).channel)
  {
    hide CheckWithdrawConfirmation;
  }

  lemma WithdrawStepsKeepLocks(ch: Channel, s: Step)
    requires s.GotWithdrawRequest? || s.GotWithdrawConfirmation? || s.DoCoopSettle? || s.DoWithdraw?
    requires Allowed(ch, s)
    ensures SameBothLocks(ch, Apply(ch, s).channel.value)
  {
    hide CheckTotalWithdraw, CheckCoopSettle, CheckWithdrawConfirmation, PutWithdraw, MaxWithdraw, PriorToClosed,
      ReceiveWithdrawRequest, ReceiveWithdrawConfirmation, RequestMatchesCoopSettle;
    if s.GotWithdrawRequest? {
      RequestKeepsLocks(ch, s.withdraw, s.block);
    } else if s.GotWithdrawConfirmation? {
      ConfirmationKeepsLocks(ch, s.withdraw, s.block);
    }
  }

  lemma OtherStepsKeepLocks(ch: Channel, s: Step)
    requires Allowed(ch, s) && !TouchesLocks(s) && Apply(ch, s).channel.Some?
    ensures var ch' := Apply(ch, s).channel.value;
      SameLocks(ch.our, ch'.our) && SameLocks(ch.partner, ch'.partner) && ch'.keccak == ch.keccak
  {
    hide CheckTotalWithdraw, CheckCoopSettle, CheckWithdrawRequest, CheckWithdrawConfirmation,
      CheckWithdrawExpired, CheckRequestUnderCoopSettle, PutWithdraw, DropWithdraw, FindWithdraw,
      MaxWithdraw, ExpireWithdraws, ExpireCoopSettle, Finish, GetStatus, NoLocksRoot,
      SendCoopSettle, SendWithdraw,
      SendTransfer, SendUnlockFor, SendLockExpiredFor, ReceiveTransfer, ReceiveRefund, ReceiveUnlock,
      ReceiveLockExpired, RegisterSecret, RegisterOnchainSecret, CanSendTransfer, CanSendUnlock,
      ActionWithdraw, ActionCoopSettle, ReceiveWithdrawRequest, ReceiveWithdrawConfirmation;
    if s.GotWithdrawRequest? || s.GotWithdrawConfirmation? || s.DoCoopSettle? || s.DoWithdraw? {
      WithdrawStepsKeepLocks(ch, s);
    } else if s.NewBlock? {
      ExpireWithdrawsFrame(ch.our, ch.our.withdrawsPending, s.block);
    }
  }

  /** A step keeps the accounting if and only if it respects the discipline. */
  lemma StepAccounted(ch: Channel, s: Step)
    requires BothAccounted(ch) && Allowed(ch, s) && Apply(ch, s).channel.Some?
    ensures BothAccounted(Apply(ch, s).channel.value) <==> LockDiscipline(ch, s)
  {
    hide Accounted, CheckTransfer, CanSendTransfer, CanSendUnlock, IsLockPending, SendTransfer,
      SendUnlockFor, SendLockExpiredFor, ReceiveUnlock, ReceiveLockExpired, RegisterOnchainSecret, ActionWithdraw,
      ActionCoopSettle, ReceiveWithdrawRequest, ReceiveWithdrawConfirmation, ReceiveWithdrawExpired, HandleBlock,
      ActionClose, ChannelClosed, UpdatedTransfer, ChannelSettled, BatchUnlock, Deposit, ChannelWithdraw,
      SetRevealTimeout, CloseRecorded, RequestMatchesCoopSettle, CheckWithdrawConfirmation;
    match s
    case DoSendTransfer(lock) => SendTransferAccounted(ch, lock);
    case DoSendUnlock(h, block) => SendUnlockAccounted(ch, h, block);
    case DoSendLockExpired(lock) => SendLockExpiredAccounted(ch, lock);
    case GotTransfer(m) =>
      if CheckTransfer(ch, m.proof, m.lock).Accept? { AcceptedTransferAccounted(ch, m.proof, m.lock); }
    case GotRefund(m, original) =>
      if CheckRefund(ch, m, original).Accept? { AcceptedTransferAccounted(ch, m.proof, m.lock); }
    case GotUnlock(m) => ReceiveUnlockAccounted(ch, m);
    case GotLockExpired(m, block) => ReceiveLockExpiredAccounted(ch, m, block);
    case SecretRevealed(secret, h) =>
      AccountedRegister(ch.keccak, ch.our, secret, h, 0);
      AccountedRegister(ch.keccak, ch.partner, secret, h, 0);
    case SecretRegistered(secret, h, block) => RegisterOnchainAccounted(ch, secret, h, block, true);
    case _ => QuietStepAccounted(ch, s);
  }

  lemma QuietStepAccounted(ch: Channel, s: Step)
    requires BothAccounted(ch) && Allowed(ch, s) && !TouchesLocks(s) && Apply(ch, s).channel.Some?
    ensures BothAccounted(Apply(ch, s).channel.value)
  {
    hide Accounted, Apply, Allowed;
    OtherStepsKeepLocks(ch, s);
    SameLocksAccounted(ch.keccak, ch.our, Apply(ch, s).channel.value.our);
    SameLocksAccounted(ch.keccak, ch.partner, Apply(ch, s).channel.value.partner);
  }

  // ---------- overflow ----------

  /** The two amounts of an end's balance proof together fit in an unsigned 256-bit integer. */
  predicate InRange(e: End)
  {
    0 <= Transferred(e) && Transferred(e) + AmountLocked(e) <= UINT256_MAX
  }

  predicate BothInRange(ch: Channel)
  {
    InRange(ch.our) && InRange(ch.partner)
  }

  /** With the accounting kept, the range of an end can be read off its balance proof. */
  lemma InRangeFromProof(keccak: Bytes -> Hash, e: End)
    requires Accounted(keccak, e) && e.balanceProof.Some?
    requires 0 <= e.balanceProof.value.transferred
    requires e.balanceProof.value.transferred + e.balanceProof.value.lockedAmount <= UINT256_MAX
    ensures InRange(e)
  {
  }

  lemma SendTransferInRange(ch: Channel, lock: Lock)
    requires CanSendTransfer(ch, lock) && CurrentLocked(ch.our) == AmountLocked(ch.our) && InRange(ch.our)
    ensures var p := SendTransfer(ch, lock).channel.our.balanceProof;
      p.Some? && 0 <= p.value.transferred && p.value.transferred + p.value.lockedAmount <= UINT256_MAX
  {
    hide AmountLocked, CurrentLocked, Balance, Encode, GetStatus, Locksroot;
  }

  lemma SendUnlockInRange(ch: Channel, h: Hash, block: nat)
    requires CanSendUnlock(ch, h, block) && InRange(ch.our)
    ensures var p := SendUnlockFor(ch, h, block).channel.our.balanceProof;
      p.Some? && 0 <= p.value.transferred && p.value.transferred + p.value.lockedAmount <= UINT256_MAX
  {
    hide AmountLocked, Encode, GetStatus, Locksroot, RemoveFirst, GetLock, IsLockExpired, IsLockPending;
  }

  lemma SendLockExpiredInRange(ch: Channel, lock: Lock)
    requires CanSendLockExpired(ch) && InRange(ch.our)
    ensures var p := SendLockExpiredFor(ch, lock).channel.our.balanceProof;
      Encode(lock) in ch.our.pendingLocks ==>
        p.Some? && 0 <= p.value.transferred && p.value.transferred + p.value.lockedAmount <= UINT256_MAX
  {
    hide AmountLocked, Encode, GetStatus, Locksroot, RemoveFirst;
  }

  /** An accepted envelope replaces the proof by one that was checked; otherwise nothing changes. */
  lemma AcceptedInRange(ch: Channel, s: Step)
    requires s.GotTransfer? || s.GotRefund? || s.GotUnlock? || s.GotLockExpired?
    requires Allowed(ch, s) && InRange(ch.partner)
    ensures var ch' := Apply(ch, s).channel.value; var p := ch'.partner.balanceProof;
      ch'.our == ch.our && (ch'.partner == ch.partner ||
      (p.Some? && 0 <= p.value.transferred && p.value.transferred + p.value.lockedAmount <= UINT256_MAX))
  {
    hide AmountLocked, CurrentLocked, Encode, GetStatus, Locksroot, RemoveFirst, GetLock, IsLockExpired,
      IsLockPending, Distributable, LocksWith, LocksWithout, RefundMatches, Without;
  }

  lemma StepInRange(ch: Channel, s: Step)
    requires BothAccounted(ch) && BothInRange(ch)
    requires Allowed(ch, s) && LockDiscipline(ch, s) && Apply(ch, s).channel.Some?
    ensures BothInRange(Apply(ch, s).channel.value)
  {
    hide Accounted, AmountLocked, Transferred;
    var ch' := Apply(ch, s).channel.value;
    StepAccounted(ch, s);
    if TouchesLocks(s) {
      LockStepInRange(ch, s);
    } else {
      OtherStepsKeepLocks(ch, s);
      SameLocksAccounted(ch.keccak, ch.our, ch'.our);
      SameLocksAccounted(ch.keccak, ch.partner, ch'.partner);
    }
  }

  lemma LockStepInRange(ch: Channel, s: Step)
    requires BothAccounted(ch) && BothInRange(ch)
    requires Allowed(ch, s) && TouchesLocks(s) && BothAccounted(Apply(ch, s).channel.value)
    ensures BothInRange(Apply(ch, s).channel.value)
  {
    hide Accounted, AmountLocked, CurrentLocked, InRange;
    hide CanSendTransfer, CanSendUnlock, CanSendLockExpired;
    var ch' := Apply(ch, s).channel.value;
    if s.SecretRevealed? || s.SecretRegistered? {
      RegisterInRange(ch, s);
    } else if s.GotTransfer? || s.GotRefund? || s.GotUnlock? || s.GotLockExpired? {
      AcceptedInRange(ch, s);
      if ch'.partner != ch.partner { InRangeFromProof(ch.keccak, ch'.partner); }
    } else if s.DoSendTransfer? {
      CurrentIsAmount(ch.keccak, ch.our);
      SendTransferInRange(ch, s.lock);
      InRangeFromProof(ch.keccak, ch'.our);
    } else if s.DoSendUnlock? {
      SendUnlockInRange(ch, s.secrethash, s.block);
      InRangeFromProof(ch.keccak, ch'.our);
    } else {
      SendLockExpiredInRange(ch, s.lock);
      if Encode(s.lock) in ch.our.pendingLocks { InRangeFromProof(ch.keccak, ch'.our); }
    }
  }

  lemma RegisterInRange(ch: Channel, s: Step)
    requires BothAccounted(ch) && BothInRange(ch) && (s.SecretRevealed? || s.SecretRegistered?)
    requires BothAccounted(Apply(ch, s).channel.value)
    ensures BothInRange(Apply(ch, s).channel.value)
  {
    hide AmountLocked, Indexed, ProofMatches, RegisterSecretEnd, RegisterOnchainEnd;
    var ch' := Apply(ch, s).channel.value;
    if s.SecretRevealed? {
      AllLocksRegister(ch.our, s.secret, s.secrethash);
      AllLocksRegister(ch.partner, s.secret, s.secrethash);
    } else {
      AllLocksRegisterOnchain(ch.our, s.secret, s.secrethash, s.block);
      AllLocksRegisterOnchain(ch.partner, s.secret, s.secrethash, s.block);
    }
    RegisterKeepsProof(ch, s);
    RegisterKeepsAmounts(ch, ch');
  }

  lemma RegisterKeepsProof(ch: Channel, s: Step)
    requires s.SecretRevealed? || s.SecretRegistered?
    ensures var ch' := Apply(ch, s).channel.value;
      ch'.our.balanceProof == ch.our.balanceProof && ch'.partner.balanceProof == ch.partner.balanceProof
      && ch'.keccak == ch.keccak
  {
  }

  lemma RegisterKeepsAmounts(ch: Channel, ch': Channel)
    requires BothAccounted(ch) && BothAccounted(ch')
    requires AllLocks(ch'.our) == AllLocks(ch.our) && AllLocks(ch'.partner) == AllLocks(ch.partner)
    ensures AmountLocked(ch'.our) == AmountLocked(ch.our) && AmountLocked(ch'.partner) == AmountLocked(ch.partner)
  {
    AmountIsSum(ch.our);
    AmountIsSum(ch'.our);
    AmountIsSum(ch.partner);
    AmountIsSum(ch'.partner);
  }

  // ---------- runs ----------

  predicate Disciplined(ch: Channel, steps: seq<Step>)
    requires IsRun(ch, steps)
    decreases steps
  {
    steps == [] ||
    (LockDiscipline(ch, steps[0])
     && var next := Apply(ch, steps[0]).channel;
        next.Some? ==> Disciplined(next.value, steps[1..]))
  }

  /** Lock accounting and absence of overflow over every run. */
  lemma {:induction false} RunAccounted(ch: Channel, steps: seq<Step>)
    requires BothAccounted(ch) && BothInRange(ch)
    requires IsRun(ch, steps) && Disciplined(ch, steps) && After(ch, steps).Some?
    ensures BothAccounted(After(ch, steps).value) && BothInRange(After(ch, steps).value)
    decreases steps
  {
    if steps != [] {
      StepAccounted(ch, steps[0]);
      StepInRange(ch, steps[0]);
      RunAccounted(Apply(ch, steps[0]).channel.value, steps[1..]);
    }
  }

  lemma FreshAccounted(ch: Channel)
    requires FreshChannel(ch)
    ensures BothAccounted(ch) && BothInRange(ch)
  {
  }
}
