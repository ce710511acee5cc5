/**
 Runs from a fresh channel on which the code fails to keep what it should keep: the inputs that the
 side conditions of `AccountedRuns` and `Solvency` shut out.
 */
module FailingRuns {
  import opened LockCodec
  import opened LockMaps
  import opened ChannelState
  import opened ChannelValidation
  import opened ChannelTransitions
  import opened ChannelRuns
  import opened LockAccounting
  import opened AccountedRuns
  import opened Solvency

  /** The first transfer of a channel locks its amount and keeps everything in order. */
  lemma FirstTransfer(ch: Channel, lock: Lock)
    requires FreshChannel(ch) && lock.amount <= ch.our.contractBalance
    ensures CanSendTransfer(ch, lock)
    ensures var ch1 := SendTransfer(ch, lock).channel;
      BothAccounted(ch1) && Solvent(ch1) && AmountLocked(ch1.our) == lock.amount && AmountLocked(ch1.partner) == 0
      && GetLock(ch1.our, lock.secrethash) == Some(lock)
  {
    FreshAccounted(ch);
    NoLocks(ch.our);
    NoLocks(ch.partner);
    assert CanSendTransfer(ch, lock);
    SendTransferAccounted(ch, lock);
    var ch1 := SendTransfer(ch, lock).channel;
    hide Indexed, AllLocks, AmountLocked, Locksroot, Encode;
  }

  lemma NoLocks(e: End)
    requires e.locked == map[] && e.unlocked == map[] && e.onchain == map[]
    ensures AmountLocked(e) == 0
  {
    assert LocksOf(e.unlocked) == map[] && LocksOf(e.onchain) == map[];
  }

  /**
   On every fresh channel, a withdraw of the whole deposit is accepted although a transfer has
   locked it, and the unlock of that transfer then makes the balance negative.
   */
  lemma WithdrawOverdraws(ch: Channel, lock: Lock, block: nat)
    requires FreshChannel(ch) && 0 < lock.amount == ch.our.contractBalance && block < lock.expiration
    ensures var first, second := DoSendTransfer(lock), DoWithdraw(lock.amount, block);
      IsRun(ch, [first, second]) && After(ch, [first, second]).Some?
      && Solvent(Apply(ch, first).channel.value) && !Solvent(After(ch, [first, second]).value)
      && var ch2 := After(ch, [first, second]).value;
         CanSendUnlock(ch2, lock.secrethash, block)
         && var ch3 := SendUnlockFor(ch2, lock.secrethash, block).channel;
            Balance(ch3.our, ch3.partner) == 0 - lock.amount
  {
    FirstTransfer(ch, lock);
    var ch1 := SendTransfer(ch, lock).channel;
    var w := Withdraw(lock.amount, SafeInitialExpiration(block, ch.revealTimeout), 2);
    WithdrawSolvent(ch1, lock.amount, block);
    var ch2 := ActionWithdraw(ch1, lock.amount, block).channel;
    assert ch2.our.withdrawsPending == [w];
    hide AmountLocked, Encode, Solvent, BothAccounted, RemoveFirst, Locksroot, Distributable;
    RunOfTwo(ch, DoSendTransfer(lock), DoWithdraw(lock.amount, block));
  }

  /** Sending two different locks under one secrethash breaks the lock accounting. */
  lemma ReuseFails(ch: Channel, a: Lock, b: Lock)
    requires FreshChannel(ch) && a.secrethash == b.secrethash && a != b
    requires a.amount + b.amount <= ch.our.contractBalance && a.amount + b.amount <= UINT256_MAX
    ensures var steps := [DoSendTransfer(a), DoSendTransfer(b)];
      IsRun(ch, steps) && After(ch, steps).Some? && !BothAccounted(After(ch, steps).value)
  {
    FirstTransfer(ch, a);
    var ch1 := SendTransfer(ch, a).channel;
    if Encode(a) == Encode(b) { EncodeInjective(a, b); }
    CurrentIsAmount(ch.keccak, ch1.our);
    hide AmountLocked, Encode, Solvent, Accounted, Locksroot;
    assert CanSendTransfer(ch1, b);
    SendTransferAccounted(ch1, b);
    RunOfTwo(ch, DoSendTransfer(a), DoSendTransfer(b));
  }

  lemma RegisterMoves(e: End, lock: Lock, secret: Bytes, block: nat)
    requires e.locked == map[lock.secrethash := lock] && e.unlocked == map[] && block <= lock.expiration
    ensures var e' := RegisterOnchainEnd(e, secret, lock.secrethash, block, true);
      lock.secrethash in e'.onchain && e'.pendingLocks == e.pendingLocks && e'.balanceProof == e.balanceProof
      && e'.nonce == e.nonce
  {
  }

  /** So does expiring a lock whose secret is registered on-chain. */
  lemma ExpiringRegisteredFails(ch: Channel, lock: Lock, secret: Bytes, block: nat)
    requires FreshChannel(ch) && lock.amount <= ch.our.contractBalance && block <= lock.expiration
    ensures var steps := [DoSendTransfer(lock), SecretRegistered(secret, lock.secrethash, block), DoSendLockExpired(lock)];
      IsRun(ch, steps) && After(ch, steps).Some? && !BothAccounted(After(ch, steps).value)
  {
    hide AmountLocked, Encode, Solvent, BothAccounted, Locksroot, RemoveFirst, Without, Distributable, GetLock,
      RegisterOnchainEnd;
    FirstTransfer(ch, lock);
    var ch1 := SendTransfer(ch, lock).channel;
    var ch2 := RegisterOnchainSecret(ch1, secret, lock.secrethash, block, true);
    RegisterOnchainAccounted(ch1, secret, lock.secrethash, block, true);
    RegisterMoves(ch1.our, lock, secret, block);
    SendLockExpiredAccounted(ch2, lock);
    var second, third := SecretRegistered(secret, lock.secrethash, block), DoSendLockExpired(lock);
    RunOfTwo(ch1, second, third);
    RunCons(ch, DoSendTransfer(lock), [second, third]);
    assert [DoSendTransfer(lock)] + [second, third] == [DoSendTransfer(lock), second, third];
  }

  /** A request for a settlement that is refused, for it does not ask for everything, is recorded all the same. */
  lemma RefusedButRecorded(ch: Channel, expiration: int, block: nat)
    requires FreshChannel(ch) && ch.partner.contractBalance > 0
    ensures var m := WithdrawMsg(ch.id, ch.partner.address, ch.partner.address, 0, 1, expiration,
                                 Some(ch.partner.address), true);
      var r := ReceiveWithdrawRequest(ch, m, block);
      r.events == [Invalid(NotMaximumWithdraw)] && r.channel.partner.nonce == 1
      && r.channel.partner.withdrawsPending == [Withdraw(0, expiration, 1)]
  {
    hide GetStatus;
  }
}
