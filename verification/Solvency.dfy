/**
 Solvency: over every run both ends can pay for their pending locks, so no balance is ever
 negative. The one thing the channel does not check itself is that a withdraw leaves enough for
 the locks: it compares with the balance, not with the balance minus the locked amount.
 */
module Solvency {
  import opened LockCodec
  import opened LockMaps
  import opened ChannelState
  import opened ChannelValidation
  import opened ChannelTransitions
  import opened ChannelRuns
  import opened LockAccounting
  import opened AccountedRuns

  /** What is left of an end's balance once its pending locks are set aside. */
  function Free(e: End, other: End): int
  {
    Balance(e, other) - AmountLocked(e)
  }

  predicate Solvent(ch: Channel)
  {
    Free(ch.our, ch.partner) >= 0 && Free(ch.partner, ch.our) >= 0
  }

  /** Every withdraw that is recorded fits in the free part of the balance. */
  predicate WithdrawFits(ch: Channel, s: Step)
  {
    match s
    case DoWithdraw(total, _) =>
      CheckTotalWithdraw(ch, total, false).Accept? ==> total - TotalWithdraw(ch.our) <= Free(ch.our, ch.partner)
    case GotWithdrawRequest(m, _) =>
      CheckWithdrawRequest(ch, m).Accept? ==> m.total - TotalWithdraw(ch.partner) <= Free(ch.partner, ch.our)
    case Withdrawn(participant, total) =>
      if participant == ch.our.address then total - TotalWithdraw(ch.our) <= Free(ch.our, ch.partner)
      else if participant == ch.partner.address then total - TotalWithdraw(ch.partner) <= Free(ch.partner, ch.our)
      else true
    case _ => true
  }

  // ---------- the largest pending withdraw ----------

  lemma {:induction false} MaxTotalPut(ws: seq<Withdraw>, w: Withdraw)
    requires w.total >= MaxTotal(ws)
    ensures MaxTotal(PutWithdraw(ws, w)) == w.total
  {
    if ws != [] && ws[0].total != w.total {
      var rest := ws[1..];
      if rest != [] { MaxTotalPut(rest, w); }
      assert PutWithdraw(ws, w)[1..] == PutWithdraw(rest, w);
    } else if ws != [] {
      assert PutWithdraw(ws, w)[1..] == ws[1..];
    }
  }

  lemma {:induction false} MaxTotalDrop(ws: seq<Withdraw>, total: int)
    ensures MaxTotal(DropWithdraw(ws, total)) <= Max(MaxTotal(ws), 0)
  {
    if ws != [] && ws[0].total != total {
      MaxTotalDrop(ws[1..], total);
      assert DropWithdraw(ws, total)[1..] == DropWithdraw(ws[1..], total);
    }
  }

  lemma {:induction false} ExpiryFreesBalance(e: End, ws: seq<Withdraw>, block: nat)
    ensures TotalWithdraw(ExpireWithdraws(e, ws, block).end) <= TotalWithdraw(e)
    decreases ws
  {
    if ws != [] && WithdrawIsExpired(ws[0], block) {
      MaxTotalDrop(e.withdrawsPending, ws[0].total);
      ExpiryFreesBalance(ExpireOne(e, ws[0]), ws[1..], block);
    }
  }

  lemma TotalAfterPut(e: End, w: Withdraw)
    requires w.total >= TotalWithdraw(e)
    ensures TotalWithdraw(e.(withdrawsPending := PutWithdraw(e.withdrawsPending, w))) == w.total
  {
    MaxTotalPut(e.withdrawsPending, w);
  }

  lemma TotalAfterOnchain(e: End, total: nat)
    ensures var t := TotalWithdraw(WithdrawnOnchain(e, total));
      t <= Max(TotalWithdraw(e), total) && (total >= TotalWithdraw(e) ==> t == total)
  {
    MaxTotalDrop(e.withdrawsPending, total);
  }

  // ---------- steps on locks ----------

  /** What a step on locks may do to one end: its free part does not shrink below zero. */
  lemma LockStepSolvent(ch: Channel, s: Step)
    requires BothAccounted(ch) && Solvent(ch) && Allowed(ch, s) && TouchesLocks(s)
    requires BothAccounted(Apply(ch, s).channel.value)
    ensures Solvent(Apply(ch, s).channel.value)
  {
    hide Accounted, AmountLocked, CurrentLocked, Transferred, TotalWithdraw;
    var ch' := Apply(ch, s).channel.value;
    if s.SecretRevealed? || s.SecretRegistered? {
      RegisterSolvent(ch, s);
    } else if s.GotTransfer? || s.GotRefund? || s.GotUnlock? || s.GotLockExpired? {
      AcceptedSolvent(ch, s);
    } else {
      SentSolvent(ch, s);
    }
  }

  lemma ProofAmount(keccak: Bytes -> Hash, e: End)
    requires Accounted(keccak, e) && e.balanceProof.Some?
    ensures AmountLocked(e) == e.balanceProof.value.lockedAmount
  {
  }

  lemma RegisterSolvent(ch: Channel, s: Step)
    requires BothAccounted(ch) && Solvent(ch) && (s.SecretRevealed? || s.SecretRegistered?)
    requires Allowed(ch, s) && Apply(ch, s).channel.Some? && BothAccounted(Apply(ch, s).channel.value)
    ensures Solvent(Apply(ch, s).channel.value)
  {
    hide AmountLocked, Indexed, ProofMatches, AllLocks, DisjointMaps,
      SendTransfer, SendUnlockFor, SendLockExpiredFor, ReceiveTransfer, ReceiveRefund, ReceiveUnlock,
      ReceiveLockExpired, ActionWithdraw, ActionCoopSettle, ReceiveWithdrawRequest, ReceiveWithdrawConfirmation,
      ReceiveWithdrawExpired, HandleBlock, ActionClose, ChannelClosed, UpdatedTransfer, ChannelSettled, BatchUnlock,
      Deposit, ChannelWithdraw, SetRevealTimeout, Allowed;
    var ch' := Apply(ch, s).channel.value;
    assert AmountLocked(ch'.our) == AmountLocked(ch.our) && AmountLocked(ch'.partner) == AmountLocked(ch.partner) by {
      if s.SecretRevealed? {
        AllLocksRegister(ch.our, s.secret, s.secrethash);
        AllLocksRegister(ch.partner, s.secret, s.secrethash);
      } else {
        AllLocksRegisterOnchain(ch.our, s.secret, s.secrethash, s.block);
        AllLocksRegisterOnchain(ch.partner, s.secret, s.secrethash, s.block);
      }
      RegisterKeepsAmounts(ch, ch');
    }
  }

  lemma SentSolvent(ch: Channel, s: Step)
    requires s.DoSendTransfer? || s.DoSendUnlock? || s.DoSendLockExpired?
    requires BothAccounted(ch) && Solvent(ch) && Allowed(ch, s)
    requires BothAccounted(Apply(ch, s).channel.value)
    ensures Solvent(Apply(ch, s).channel.value)
  {
    hide Accounted, AmountLocked, MaxTotal, Encode, GetStatus, Locksroot, RemoveFirst, GetLock, IsLockExpired,
      IsLockPending, Without;
    var ch' := Apply(ch, s).channel.value;
    if ch'.our.balanceProof.Some? { ProofAmount(ch.keccak, ch'.our); }
  }

  lemma AcceptedSolvent(ch: Channel, s: Step)
    requires s.GotTransfer? || s.GotRefund? || s.GotUnlock? || s.GotLockExpired?
    requires BothAccounted(ch) && Solvent(ch) && Allowed(ch, s)
    requires BothAccounted(Apply(ch, s).channel.value)
    ensures Solvent(Apply(ch, s).channel.value)
  {
    hide Accounted, AmountLocked, CurrentLocked, MaxTotal, Encode, GetStatus, Locksroot, RemoveFirst, GetLock,
      IsLockExpired, IsLockPending, Without, RefundMatches;
    var ch' := Apply(ch, s).channel.value;
    CurrentIsAmount(ch.keccak, ch.partner);
    if ch'.partner.balanceProof.Some? { ProofAmount(ch.keccak, ch'.partner); }
  }

  // ---------- steps on deposits and withdraws ----------

  lemma NoPendingLocks(keccak: Bytes -> Hash, e: End)
    requires Accounted(keccak, e) && e.pendingLocks == []
    ensures AmountLocked(e) == 0
  {
    AmountIsSum(e);
    assert forall h :: h in AllLocks(e) ==> Encode(AllLocks(e)[h]) in e.pendingLocks;
    assert AllLocks(e).Keys == {};
  }

  /** With the locks untouched, the free parts move only with the deposits and the withdraws. */
  lemma FreeMoves(ch: Channel, ch': Channel)
    requires SameLocks(ch.our, ch'.our) && SameLocks(ch.partner, ch'.partner)
    ensures Free(ch'.our, ch'.partner) - Free(ch.our, ch.partner)
         == ch'.our.contractBalance - ch.our.contractBalance - (TotalWithdraw(ch'.our) - TotalWithdraw(ch.our))
    ensures Free(ch'.partner, ch'.our) - Free(ch.partner, ch.our)
         == ch'.partner.contractBalance - ch.partner.contractBalance
            - (TotalWithdraw(ch'.partner) - TotalWithdraw(ch.partner))
  {
    hide SumAmounts, TotalWithdraw;
  }

  lemma WithdrawSolvent(ch: Channel, total: int, block: nat)
    requires Solvent(ch)
    ensures Solvent(ActionWithdraw(ch, total, block).channel) <==> WithdrawFits(ch, DoWithdraw(total, block))
  {
    hide AmountLocked, MaxTotal, PutWithdraw, Free, TotalWithdraw;
    var ch' := ActionWithdraw(ch, total, block).channel;
    if CheckTotalWithdraw(ch, total, false).Accept? {
      var w := Withdraw(total, SafeInitialExpiration(block, ch.revealTimeout), NextNonce(ch.our));
      TotalAfterPut(ch.our, w);
      SameTotal(ch'.our, ch.our.(withdrawsPending := PutWithdraw(ch.our.withdrawsPending, w)));
      FreeMoves(ch, ch');
    }
  }

  lemma SameTotal(e: End, e': End)
    requires e'.withdrawsPending == e.withdrawsPending && e'.onchainTotalWithdraw == e.onchainTotalWithdraw
    ensures TotalWithdraw(e') == TotalWithdraw(e)
  {
  }

  lemma CoopSettleSolvent(ch: Channel, block: nat)
    requires BothAccounted(ch) && Solvent(ch)
    ensures Solvent(ActionCoopSettle(ch, block).channel)
  {
    hide Accounted, AmountLocked, MaxTotal, PutWithdraw, TotalWithdraw, Transferred;
    var ch' := ActionCoopSettle(ch, block).channel;
    var total := MaxWithdraw(ch.our, ch.partner);
    if CheckCoopSettle(ch, total).Accept? {
      NoPendingLocks(ch.keccak, ch.our);
      var w := Withdraw(total, SafeInitialExpiration(block, ch.revealTimeout), NextNonce(ch.our));
      TotalAfterPut(ch.our, w);
      SameTotal(ch'.our, ch.our.(withdrawsPending := PutWithdraw(ch.our.withdrawsPending, w)));
      FreeMoves(ch, ch');
    }
  }

  /** Recording the partner's request. */
  lemma RecordSolvent(ch: Channel, m: WithdrawMsg)
    requires Solvent(ch) && CheckWithdrawRequest(ch, m).Accept?
    ensures Solvent(RecordRequest(ch, m)) <==> m.total - TotalWithdraw(ch.partner) <= Free(ch.partner, ch.our)
    ensures Free(RecordRequest(ch, m).our, RecordRequest(ch, m).partner) == Free(ch.our, ch.partner)
    ensures Free(RecordRequest(ch, m).partner, RecordRequest(ch, m).our)
         == Free(ch.partner, ch.our) - (m.total - TotalWithdraw(ch.partner))
  {
    hide AmountLocked, MaxTotal, PutWithdraw, Free, TotalWithdraw;
    var ch' := RecordRequest(ch, m);
    var w := Withdraw(m.total, m.expiration, m.nonce);
    TotalAfterPut(ch.partner, w);
    SameTotal(ch'.partner, ch.partner.(withdrawsPending := PutWithdraw(ch.partner.withdrawsPending, w)));
    FreeMoves(ch, ch');
  }

  /** Answering a cooperative settlement withdraws our whole balance, when we have no locks. */
  lemma JoinSolvent(ch: Channel, m: WithdrawMsg, block: nat)
    requires BothAccounted(ch) && Free(ch.our, ch.partner) >= 0
    requires CheckRequestUnderCoopSettle(ch, m).Accept?
    ensures var ch' := JoinCoopSettle(ch, m, block).channel;
      Free(ch'.our, ch'.partner) >= 0 && Free(ch'.partner, ch'.our) == Free(ch.partner, ch.our)
  {
    hide Accounted, AmountLocked, MaxTotal, PutWithdraw, TotalWithdraw, Transferred, SendCoopSettle;
    var ch' := JoinCoopSettle(ch, m, block).channel;
    if ch.our.coopSettle.Some? {
      var ch1 := ch.(our := ch.our.(coopSettle := Some(ch.our.coopSettle.value.(requestSigned := true))));
      SendCoopSettleFrame(ch1, block);
      SameTotal(ch.our, ch'.our);
      FreeMoves(ch, ch');
    } else if m.coopSettle {
      NoPendingLocks(ch.keccak, ch.our);
      var total := MaxWithdraw(ch.our, ch.partner);
      var w := Withdraw(total, m.expiration, NextNonce(ch.our));
      TotalAfterPut(ch.our, w);
      SameTotal(ch'.our, if PriorToClosed(ch) then ch.our.(withdrawsPending := PutWithdraw(ch.our.withdrawsPending, w)) else ch.our);
      SameTotal(ch.partner, ch'.partner);
      FreeMoves(ch, ch');
    }
  }

  lemma SendCoopSettleFrame(ch: Channel, block: nat)
    requires ch.our.coopSettle.Some?
    ensures var ch' := SendCoopSettle(ch, block).channel;
      ch' == ch.(our := ch.our.(coopSettle := ch'.our.coopSettle))
  {
  }

  lemma RequestSolvent(ch: Channel, m: WithdrawMsg, block: nat)
    requires BothAccounted(ch) && Solvent(ch) && RequestMatchesCoopSettle(ch, m)
    ensures Solvent(ReceiveWithdrawRequest(ch, m, block).channel)
       <==> WithdrawFits(ch, GotWithdrawRequest(m, block))
  {
    hide Accounted, CheckWithdrawRequest, CheckRequestUnderCoopSettle, JoinCoopSettle, Free, TotalWithdraw, RecordRequest;
    if CheckWithdrawRequest(ch, m).Accept? {
      RecordSolvent(ch, m);
      var ch1 := RecordRequest(ch, m);
      assert BothAccounted(ch1) by { RecordAccounted(ch, m); }
      if CheckRequestUnderCoopSettle(ch1, m).Accept? {
        JoinSolvent(ch1, m, block);
        var ch2 := JoinCoopSettle(ch1, m, block).channel;
        var ch3 := ReceiveWithdrawRequest(ch, m, block).channel;
        NonceKeepsFree(ch2, NextNonce(ch2.our));
      }
    }
  }

  lemma RecordAccounted(ch: Channel, m: WithdrawMsg)
    requires BothAccounted(ch)
    ensures BothAccounted(RecordRequest(ch, m))
  {
    hide Accounted;
    SameLocksAccounted(ch.keccak, ch.partner, RecordRequest(ch, m).partner);
  }

  lemma NonceKeepsFree(ch: Channel, nonce: nat)
    ensures var our := ch.our.(nonce := nonce);
      Free(our, ch.partner) == Free(ch.our, ch.partner) && Free(ch.partner, our) == Free(ch.partner, ch.our)
  {
    hide SumAmounts, MaxTotal;
  }

  lemma OnchainSolvent(ch: Channel, participant: Address, total: nat)
    requires Solvent(ch)
    ensures Solvent(ChannelWithdraw(ch, participant, total)) <==> WithdrawFits(ch, Withdrawn(participant, total))
  {
    hide AmountLocked, MaxTotal, DropWithdraw, Free, TotalWithdraw;
    var ch' := ChannelWithdraw(ch, participant, total);
    TotalAfterOnchain(ch.our, total);
    TotalAfterOnchain(ch.partner, total);
    FreeMoves(ch, ch');
  }

  lemma BlockSolvent(ch: Channel, block: nat)
    requires Solvent(ch) && CloseRecorded(ch)
    ensures Solvent(HandleBlock(ch, block).channel)
  {
    hide AmountLocked, MaxTotal, ExpireWithdraws, Free, TotalWithdraw, GetStatus;
    var ch' := HandleBlock(ch, block).channel;
    ExpireWithdrawsFrame(ch.our, ch.our.withdrawsPending, block);
    ExpiryFreesBalance(ch.our, ch.our.withdrawsPending, block);
    FreeMoves(ch, ch');
  }

  lemma PartnerExpirySolvent(ch: Channel, m: WithdrawExpiredMsg, block: nat)
    requires Solvent(ch)
    ensures Solvent(ReceiveWithdrawExpired(ch, m, block).channel)
  {
    hide AmountLocked, MaxTotal, DropWithdraw, Free, CheckWithdrawExpired, FindWithdraw;
    var ch' := ReceiveWithdrawExpired(ch, m, block).channel;
    MaxTotalDrop(ch.partner.withdrawsPending, m.total);
    FreeMoves(ch, ch');
  }

  lemma ConfirmationSolvent(ch: Channel, m: WithdrawMsg, block: nat)
    requires Solvent(ch) && (CheckWithdrawConfirmation(ch, m).Accept? ==> OneCoopSettle(ch))
    ensures Solvent(ReceiveWithdrawConfirmation(ch, m, block).channel)
  {
    hide AmountLocked, MaxTotal, Free, CheckWithdrawConfirmation, SendCoopSettle;
    var ch' := ReceiveWithdrawConfirmation(ch, m, block).channel;
    if ch.our.coopSettle.Some? {
      var coop := ch.our.coopSettle.value.(confirmationSigned := true);
      SendCoopSettleFrame(
        ch.(partner := ch.partner.(nonce := m.nonce), our := ch.our.(coopSettle := Some(coop))), block);
    }
    FreeMoves(ch, ch');
  }

  /** Neither deposits shrink nor withdraws grow in any other step. */
  lemma RemainingStepsSolvent(ch: Channel, s: Step)
    requires Solvent(ch) && Allowed(ch, s) && Apply(ch, s).channel.Some?
    requires s.DoClose? || s.WasClosed? || s.WasUpdated? || s.WasSettled?
          || s.WasUnlocked? || s.Deposited? || s.DoSetRevealTimeout?
    ensures Solvent(Apply(ch, s).channel.value)
  {
    hide AmountLocked, MaxTotal, Free, Finish, GetStatus, NoLocksRoot, TotalWithdraw, Transferred, CloseRecorded,
      RequestMatchesCoopSettle, OneCoopSettle, Locksroot, Encode, CheckTransfer, CheckRefund, CheckUnlock,
      CheckLockExpired, CheckTotalWithdraw, CheckCoopSettle, CheckWithdrawRequest, CheckWithdrawConfirmation,
      CheckWithdrawExpired, CanSendTransfer, CanSendUnlock,
      SendTransfer, SendUnlockFor, SendLockExpiredFor, ReceiveTransfer, ReceiveRefund, ReceiveUnlock,
      ReceiveLockExpired, RegisterSecret, RegisterOnchainSecret, ActionWithdraw, ActionCoopSettle,
      ReceiveWithdrawRequest, ReceiveWithdrawConfirmation, ReceiveWithdrawExpired, HandleBlock, ChannelWithdraw;
    var ch' := Apply(ch, s).channel.value;
    SameTotal(ch.our, ch'.our);
    SameTotal(ch.partner, ch'.partner);
    FreeMoves(ch, ch');
  }

  // ---------- every step and every run ----------

  /** A disciplined step keeps both ends solvent if and only if its withdraw fits. */
  lemma StepSolvent(ch: Channel, s: Step)
    requires BothAccounted(ch) && Solvent(ch)
    requires Allowed(ch, s) && LockDiscipline(ch, s) && Apply(ch, s).channel.Some?
    ensures Solvent(Apply(ch, s).channel.value) <==> WithdrawFits(ch, s)
  {
    hide Accounted, Solvent, Free, CheckTotalWithdraw, CheckWithdrawRequest, LockDiscipline;
    if TouchesLocks(s) {
      StepAccounted(ch, s);
      LockStepSolvent(ch, s);
    } else if s.DoWithdraw? {
      WithdrawSolvent(ch, s.total, s.block);
    } else if s.DoCoopSettle? {
      CoopSettleSolvent(ch, s.block);
    } else if s.GotWithdrawRequest? {
      RequestSolvent(ch, s.withdraw, s.block);
    } else if s.GotWithdrawExpired? {
      PartnerExpirySolvent(ch, s.withdrawExpired, s.block);
    } else if s.NewBlock? {
      BlockSolvent(ch, s.block);
    } else if s.Withdrawn? {
      OnchainSolvent(ch, s.participant, s.amount);
    } else if s.GotWithdrawConfirmation? {
      ConfirmationSolvent(ch, s.withdraw, s.block);
    } else {
      RemainingStepsSolvent(ch, s);
    }
  }

  predicate AllWithdrawsFit(ch: Channel, steps: seq<Step>)
    requires IsRun(ch, steps)
    decreases steps
  {
    steps == [] ||
    (WithdrawFits(ch, steps[0])
     && var next := Apply(ch, steps[0]).channel;
        next.Some? ==> AllWithdrawsFit(next.value, steps[1..]))
  }

  lemma {:induction false} RunSolvent(ch: Channel, steps: seq<Step>)
    requires BothAccounted(ch) && Solvent(ch)
    requires IsRun(ch, steps) && Disciplined(ch, steps) && AllWithdrawsFit(ch, steps) && After(ch, steps).Some?
    ensures Solvent(After(ch, steps).value)
    decreases steps
  {
    hide Accounted, Solvent, WithdrawFits, LockDiscipline, Apply, Allowed;
    if steps != [] {
      StepAccounted(ch, steps[0]);
      StepSolvent(ch, steps[0]);
      RunSolvent(Apply(ch, steps[0]).channel.value, steps[1..]);
    }
  }
}
