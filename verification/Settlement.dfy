/**
 The end of a channel: closing by the partner is answered in time, and a settled channel is kept
 until every lock that was pending on-chain has been unlocked.
 */
module Settlement {
  import opened LockCodec
  import opened LockMaps
  import opened ChannelState
  import opened ChannelValidation
  import opened ChannelTransitions
  import opened ChannelRuns
  import opened Lifecycle

  // ---------- unlocking after settlement ----------

  function UnlockAll(ch: Option<Channel>, senders: seq<Address>): Option<Channel>
    decreases senders
  {
    if ch.None? || senders == [] then ch else UnlockAll(BatchUnlock(ch.value, senders[0]).channel, senders[1..])
  }

  /** The locks of this end are not, or no longer, pending on-chain. */
  predicate Cleared(keccak: Bytes -> Hash, e: End, senders: seq<Address>)
  {
    e.onchainLocksroot == NoLocksRoot(keccak) || e.address in senders
  }

  lemma {:induction false} UnlockedAfter(ch: Channel, senders: seq<Address>)
    requires GetStatus(ch) == Settled && ch.our.address != ch.partner.address
    requires !(Cleared(ch.keccak, ch.our, []) && Cleared(ch.keccak, ch.partner, []))
    ensures UnlockAll(Some(ch), senders).None?
       <==> Cleared(ch.keccak, ch.our, senders) && Cleared(ch.keccak, ch.partner, senders)
    decreases senders
  {
    if senders != [] {
      var next := BatchUnlock(ch, senders[0]).channel;
      assert senders == [senders[0]] + senders[1..];
      if next.Some? {
        UnlockedAfter(next.value, senders[1..]);
      }
    }
  }

  lemma SettledStatus(ch: Channel, m: SettledMsg)
    requires TransactionsSane(ch) && m.id == ch.id.channel && m.block > 0
    ensures var r := ChannelSettled(ch, m).channel; r.Some? ==> GetStatus(r.value) == Settled
  {
    hide NoLocksRoot;
  }

  /**
   A settled channel is dropped exactly when, for each end that had locks in the settlement, the
   unlock of that end has been seen; in any order, and however often.
   */
  lemma DroppedWhenUnlocked(ch: Channel, m: SettledMsg, senders: seq<Address>)
    requires TransactionsSane(ch) && m.id == ch.id.channel && m.block > 0 && ch.our.address != ch.partner.address
    ensures UnlockAll(ChannelSettled(ch, m).channel, senders).None?
       <==> (m.ourLocksroot == NoLocksRoot(ch.keccak) || ch.our.address in senders)
            && (m.partnerLocksroot == NoLocksRoot(ch.keccak) || ch.partner.address in senders)
  {
    SettledStatus(ch, m);
    hide GetStatus, NoLocksRoot, Finish;
    var settled := ChannelSettled(ch, m).channel;
    if settled.Some? {
      UnlockedAfter(settled.value, senders);
    }
  }

  // ---------- timeouts ----------

  /** The settlement window leaves time to reveal a secret twice over. */
  predicate TimeoutsFit(ch: Channel) { ch.settleTimeout >= ch.revealTimeout * 2 }

  lemma StepKeepsTimeouts(ch: Channel, s: Step)
    requires TimeoutsFit(ch) && Allowed(ch, s) && Apply(ch, s).channel.Some?
    ensures TimeoutsFit(Apply(ch, s).channel.value)
    ensures s.DoSetRevealTimeout? && Apply(ch, s).channel.value.revealTimeout != ch.revealTimeout ==> s.timeout >= 7
  {
    hide CheckTransfer, CheckRefund, CheckUnlock, CheckLockExpired, CheckTotalWithdraw, CheckCoopSettle,
      CheckWithdrawRequest, CheckWithdrawConfirmation, CheckWithdrawExpired, CheckRequestUnderCoopSettle,
      ExpireWithdraws, NoLocksRoot, MaxWithdraw, PutWithdraw, DropWithdraw, FindWithdraw, GetStatus, Finish,
      Without, AmountLocked, Locksroot, RemoveFirst, GetLock, CanSendTransfer, CanSendUnlock;
  }

  /** Over every run the usability check never fails for an invalid settle timeout. */
  lemma {:induction false} RunKeepsTimeouts(ch: Channel, steps: seq<Step>, amount: nat, lockTimeout: Option<nat>)
    requires TimeoutsFit(ch) && IsRun(ch, steps) && After(ch, steps).Some?
    ensures TimeoutsFit(After(ch, steps).value)
    ensures UsableForNewTransfer(After(ch, steps).value, amount, lockTimeout) != InvalidSettleTimeout
    decreases steps
  {
    hide Apply, Allowed, Distributable, CurrentLocked, GetStatus;
    if steps != [] {
      StepKeepsTimeouts(ch, steps[0]);
      RunKeepsTimeouts(Apply(ch, steps[0]).channel.value, steps[1..], amount, lockTimeout);
    }
  }
}
