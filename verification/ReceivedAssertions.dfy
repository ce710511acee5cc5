/**
 Two handlers of received messages contain assertions that a message can fail: the answer to a
 cooperative settlement must ask for exactly the share computed when the settlement was started,
 and a confirmation must not find a settlement of either side. When every message is safe, when a
 safe channel stays safe, and two runs that end in a failing assertion.
 */
module ReceivedAssertions {
  import opened LockCodec
  import opened LockMaps
  import opened ChannelState
  import opened ChannelValidation
  import opened ChannelTransitions
  import opened ChannelRuns

  // ---------- when every message is safe ----------

  /** The partner could still be granted its whole balance. */
  predicate CanGrantAll(ch: Channel)
  {
    && |ch.partner.pendingLocks| == 0
    && Balance(ch.partner, ch.our) >= 0
    && MaxWithdraw(ch.partner, ch.our) + TotalWithdraw(ch.our) <= UINT256_MAX
  }

  /** The request that asks for everything, in answer to our settlement. */
  function FullRequest(ch: Channel): WithdrawMsg
    requires ch.our.coopSettle.Some? && Balance(ch.partner, ch.our) >= 0
  {
    WithdrawMsg(ch.id, ch.partner.address, ch.partner.address, MaxWithdraw(ch.partner, ch.our),
                NextNonce(ch.partner), ch.our.coopSettle.value.expiration, Some(ch.partner.address), false)
  }

  lemma RecordKeepsMaximum(ch: Channel, m: WithdrawMsg)
    ensures var ch' := RecordRequest(ch, m);
      MaxWithdraw(ch'.partner, ch'.our) == MaxWithdraw(ch.partner, ch.our) && ch'.our == ch.our
      && ch'.partner.pendingLocks == ch.partner.pendingLocks
    ensures Balance(ch.partner, ch.our) == MaxWithdraw(ch.partner, ch.our) - TotalWithdraw(ch.partner)
  {
    hide PutWithdraw;
  }

  /** No withdraw request fails the assertion if and only if our settlement, if any, is up to date. */
  lemma RequestsSafeExactly(ch: Channel)
    ensures (forall m :: RequestMatchesCoopSettle(ch, m)) <==>
      ch.our.coopSettle.None? || ch.our.coopSettle.value.totalPartner == MaxWithdraw(ch.partner, ch.our)
      || !CanGrantAll(ch)
  {
    forall m ensures !RequestMatchesCoopSettle(ch, m) ==>
      ch.our.coopSettle.Some? && ch.our.coopSettle.value.totalPartner != m.total == MaxWithdraw(ch.partner, ch.our)
      && CanGrantAll(ch)
    {
      RecordKeepsMaximum(ch, m);
    }
    if ch.our.coopSettle.Some? && CanGrantAll(ch) {
      RecordKeepsMaximum(ch, FullRequest(ch));
    }
    hide TotalWithdraw, MaxWithdraw, RecordRequest;
    assert ch.our.coopSettle.Some? && CanGrantAll(ch) && RequestMatchesCoopSettle(ch, FullRequest(ch)) ==>
      ch.our.coopSettle.value.totalPartner == MaxWithdraw(ch.partner, ch.our);
  }

  /** A withdraw of ours that is as large as our total, pending or expired. */
  predicate CanBeConfirmed(ch: Channel)
  {
    && (FindWithdraw(ch.our.withdrawsPending, TotalWithdraw(ch.our)).Some?
        || FindWithdraw(ch.our.withdrawsExpired, TotalWithdraw(ch.our)).Some?)
    && TotalWithdraw(ch.our) + TotalWithdraw(ch.partner) <= UINT256_MAX
  }

  function FullConfirmation(ch: Channel): WithdrawMsg
    requires CanBeConfirmed(ch)
  {
    var pending := FindWithdraw(ch.our.withdrawsPending, TotalWithdraw(ch.our));
    var known := if pending.Some? then pending else FindWithdraw(ch.our.withdrawsExpired, TotalWithdraw(ch.our));
    WithdrawMsg(ch.id, ch.our.address, ch.partner.address, TotalWithdraw(ch.our),
                NextNonce(ch.partner), known.value.expiration, Some(ch.partner.address), false)
  }

  ghost predicate ConfirmationSafe(ch: Channel, m: WithdrawMsg)
  {
    CheckWithdrawConfirmation(ch, m).Accept? ==> OneCoopSettle(ch)
  }

  /** No confirmation fails the assertion if and only if at most one side has a settlement. */
  lemma ConfirmationsSafeExactly(ch: Channel)
    ensures (forall m :: ConfirmationSafe(ch, m)) <==> OneCoopSettle(ch) || !CanBeConfirmed(ch)
  {
    hide TotalWithdraw;
    if !OneCoopSettle(ch) && CanBeConfirmed(ch) {
      assert !ConfirmationSafe(ch, FullConfirmation(ch));
    }
  }

  // ---------- when a safe channel stays safe ----------

  /** The share in our settlement is what the partner would be granted now. */
  predicate SettlementCurrent(ch: Channel)
  {
    ch.our.coopSettle.Some? ==> ch.our.coopSettle.value.totalPartner == MaxWithdraw(ch.partner, ch.our)
  }

  predicate MovesMoney(s: Step)
  {
    s.Deposited? || s.DoSendUnlock? || s.GotUnlock?
  }

  /** An accepted envelope other than an unlock leaves the transferred amount as it was. */
  lemma EnvelopeKeepsTransferred(ch: Channel, s: Step)
    requires s.GotTransfer? || s.GotRefund? || s.GotLockExpired?
    ensures var ch' := Apply(ch, s).channel.value;
      ch'.our == ch.our && Transferred(ch'.partner) == Transferred(ch.partner)
      && ch'.partner.contractBalance == ch.partner.contractBalance
  {
    hide AmountLocked, CurrentLocked, Encode, GetStatus, Locksroot, RemoveFirst, IsLockExpired, Distributable,
      LocksWith, LocksWithout, RefundMatches, Without, ProofUsable;
  }

  /** The settlement stays current with every step that moves no money; a new one is current. */
  lemma StepKeepsCurrent(ch: Channel, s: Step)
    requires SettlementCurrent(ch) && !MovesMoney(s) && Allowed(ch, s) && Apply(ch, s).channel.Some?
    ensures SettlementCurrent(Apply(ch, s).channel.value)
  {
    hide Apply, Allowed, SettlementCurrent;
    if s.GotTransfer? || s.GotRefund? || s.GotLockExpired? {
      EnvelopeKeepsCurrent(ch, s);
    } else if s.NewBlock? {
      BlockKeepsCurrent(ch, s);
    } else if s.GotWithdrawRequest? || s.GotWithdrawConfirmation? || s.GotWithdrawExpired? {
      WithdrawKeepsCurrent(ch, s);
    } else {
      OtherKeepsCurrent(ch, s);
    }
  }

  lemma EnvelopeKeepsCurrent(ch: Channel, s: Step)
    requires s.GotTransfer? || s.GotRefund? || s.GotLockExpired?
    requires SettlementCurrent(ch)
    ensures SettlementCurrent(Apply(ch, s).channel.value)
  {
    hide Apply, Transferred;
    EnvelopeKeepsTransferred(ch, s);
  }

  lemma BlockKeepsCurrent(ch: Channel, s: Step)
    requires s.NewBlock? && SettlementCurrent(ch) && Allowed(ch, s)
    ensures SettlementCurrent(Apply(ch, s).channel.value)
  {
    hide ExpireWithdraws, GetStatus, CloseRecorded;
    ExpireWithdrawsFrame(ch.our, ch.our.withdrawsPending, s.block);
    ExpiryKeepsSettlement(ch.our, ch.our.withdrawsPending, s.block);
  }

  lemma WithdrawKeepsCurrent(ch: Channel, s: Step)
    requires s.GotWithdrawRequest? || s.GotWithdrawConfirmation? || s.GotWithdrawExpired?
    requires SettlementCurrent(ch) && Allowed(ch, s)
    ensures SettlementCurrent(Apply(ch, s).channel.value)
  {
    hide CheckWithdrawRequest, CheckWithdrawConfirmation, CheckWithdrawExpired, CheckRequestUnderCoopSettle,
      PutWithdraw, DropWithdraw, FindWithdraw, GetStatus, ExpireCoopSettle;
  }

  lemma OtherKeepsCurrent(ch: Channel, s: Step)
    requires !(s.GotTransfer? || s.GotRefund? || s.GotLockExpired? || s.NewBlock? || MovesMoney(s))
    requires !(s.GotWithdrawRequest? || s.GotWithdrawConfirmation? || s.GotWithdrawExpired?)
    requires SettlementCurrent(ch) && Allowed(ch, s) && Apply(ch, s).channel.Some?
    ensures SettlementCurrent(Apply(ch, s).channel.value)
  {
    hide CheckTotalWithdraw, CheckCoopSettle, NoLocksRoot, PutWithdraw, DropWithdraw, GetStatus, Finish, Without,
      AmountLocked, Locksroot, RemoveFirst, CanSendTransfer, RequestMatchesCoopSettle, Encode;
  }

  lemma {:induction false} ExpiryKeepsSettlement(e: End, ws: seq<Withdraw>, block: nat)
    ensures var r := ExpireWithdraws(e, ws, block).end.coopSettle; r.None? || r == e.coopSettle
    decreases ws
  {
    if ws != [] && WithdrawIsExpired(ws[0], block) {
      ExpiryKeepsSettlement(ExpireOne(e, ws[0]), ws[1..], block);
    }
  }

  /** We start a settlement although the partner already has. */
  predicate StartsSecond(ch: Channel, s: Step)
  {
    s.DoCoopSettle? && ch.partner.coopSettle.Some? && CheckCoopSettle(ch, MaxWithdraw(ch.our, ch.partner)).Accept?
  }

  /** The steps that can start, sign or end a settlement. */
  predicate TouchesSettlement(s: Step)
  {
    s.DoCoopSettle? || s.GotWithdrawRequest? || s.GotWithdrawConfirmation? || s.GotWithdrawExpired? || s.NewBlock?
  }

  lemma OthersKeepSettlement(ch: Channel, s: Step)
    requires !TouchesSettlement(s) && Allowed(ch, s) && Apply(ch, s).channel.Some?
    ensures var ch' := Apply(ch, s).channel.value;
      (ch'.our.coopSettle.Some? <==> ch.our.coopSettle.Some?)
      && (ch'.partner.coopSettle.Some? <==> ch.partner.coopSettle.Some?)
  {
    hide CheckTransfer, CheckRefund, CheckUnlock, CheckLockExpired, CheckTotalWithdraw, NoLocksRoot, PutWithdraw,
      DropWithdraw, GetStatus, Finish, Without, AmountLocked, Locksroot, RemoveFirst, GetLock, CanSendTransfer,
      CanSendUnlock, TotalWithdraw, Transferred, Encode, NextNonce,
      ActionCoopSettle, ReceiveWithdrawRequest, ReceiveWithdrawConfirmation, ReceiveWithdrawExpired, HandleBlock,
      RequestMatchesCoopSettle, CheckWithdrawConfirmation, CloseRecorded;
  }

  lemma SettlementStep(ch: Channel, s: Step)
    requires TouchesSettlement(s) && OneCoopSettle(ch) && Allowed(ch, s) && Apply(ch, s).channel.Some?
    ensures OneCoopSettle(Apply(ch, s).channel.value) <==> !StartsSecond(ch, s)
  {
    hide CheckCoopSettle, CheckWithdrawRequest, CheckWithdrawConfirmation, CheckWithdrawExpired,
      CheckRequestUnderCoopSettle, ExpireWithdraws, NoLocksRoot, MaxWithdraw, PutWithdraw, DropWithdraw, FindWithdraw,
      GetStatus, NextNonce,
      SendTransfer, SendUnlockFor, SendLockExpiredFor, ReceiveTransfer, ReceiveRefund, ReceiveUnlock,
      ReceiveLockExpired, RegisterSecret, RegisterOnchainSecret, CanSendTransfer, CanSendUnlock, ActionWithdraw,
      ActionClose, ChannelClosed, UpdatedTransfer, ChannelSettled, BatchUnlock, Deposit, ChannelWithdraw,
      SetRevealTimeout, RequestMatchesCoopSettle;
    if s.NewBlock? {
      ExpireWithdrawsFrame(ch.our, ch.our.withdrawsPending, s.block);
      ExpiryKeepsSettlement(ch.our, ch.our.withdrawsPending, s.block);
    }
  }

  lemma StepOneCoopSettle(ch: Channel, s: Step)
    requires OneCoopSettle(ch) && Allowed(ch, s) && Apply(ch, s).channel.Some?
    ensures OneCoopSettle(Apply(ch, s).channel.value) <==> !StartsSecond(ch, s)
  {
    hide Apply, Allowed;
    if TouchesSettlement(s) {
      SettlementStep(ch, s);
    } else {
      OthersKeepSettlement(ch, s);
    }
  }

  /** No money moves while our own settlement is in force, and we do not start a second one. */
  predicate Calm(ch: Channel, s: Step)
  {
    (MovesMoney(s) ==> ch.our.coopSettle.None?) && !StartsSecond(ch, s)
  }

  lemma MoneyKeepsNoSettlement(ch: Channel, s: Step)
    requires MovesMoney(s) && ch.our.coopSettle.None? && Allowed(ch, s)
    ensures Apply(ch, s).channel.Some? && Apply(ch, s).channel.value.our.coopSettle.None?
  {
    hide CheckUnlock, AmountLocked, Locksroot, RemoveFirst, GetLock, CanSendUnlock, Without;
  }

  predicate CalmRun(ch: Channel, steps: seq<Step>)
    requires IsRun(ch, steps)
    decreases steps
  {
    steps == [] ||
    (Calm(ch, steps[0])
     && var next := Apply(ch, steps[0]).channel;
        next.Some? ==> CalmRun(next.value, steps[1..]))
  }

  lemma {:induction false} RunKeepsSafe(ch: Channel, steps: seq<Step>)
    requires SettlementCurrent(ch) && OneCoopSettle(ch)
    requires IsRun(ch, steps) && CalmRun(ch, steps) && After(ch, steps).Some?
    ensures SettlementCurrent(After(ch, steps).value) && OneCoopSettle(After(ch, steps).value)
    decreases steps
  {
    hide Apply, Allowed, MaxWithdraw, StartsSecond;
    if steps != [] {
      if MovesMoney(steps[0]) {
        MoneyKeepsNoSettlement(ch, steps[0]);
      } else {
        StepKeepsCurrent(ch, steps[0]);
      }
      StepOneCoopSettle(ch, steps[0]);
      RunKeepsSafe(Apply(ch, steps[0]).channel.value, steps[1..]);
    }
  }

  /** After every calm run no message whatever fails an assertion. */
  lemma RunNeverRaises(ch: Channel, steps: seq<Step>, m: WithdrawMsg, block: nat)
    requires FreshChannel(ch) && IsRun(ch, steps) && CalmRun(ch, steps) && After(ch, steps).Some?
    ensures Allowed(After(ch, steps).value, GotWithdrawRequest(m, block))
    ensures Allowed(After(ch, steps).value, GotWithdrawConfirmation(m, block))
  {
    RunKeepsSafe(ch, steps);
    hide IsRun, After, CalmRun;
    RequestsSafeExactly(After(ch, steps).value);
  }

  // ---------- two runs that fail ----------

  /** A settlement that we start on a fresh channel. */
  lemma SettleFresh(ch: Channel)
    requires FreshChannel(ch) && ch.our.contractBalance + ch.partner.contractBalance < UINT256_MAX
    ensures var ch' := ActionCoopSettle(ch, 0).channel; var expiration := SafeInitialExpiration(0, ch.revealTimeout);
      ch' == ch.(our := ch'.our) && ch'.our.address == ch.our.address
      && ch'.our.withdrawsPending == [Withdraw(ch.our.contractBalance, expiration, 1)]
      && ch'.our.onchainTotalWithdraw == 0 && ch'.our.balanceProof.None? && ch'.our.contractBalance == ch.our.contractBalance
      && ch'.our.coopSettle
         == Some(CoopSettle(ch.our.contractBalance, ch.partner.contractBalance, expiration, false, false, None))
  {
  }

  /** The partner's request for everything, one more than there was. */
  function RequestForMore(ch: Channel): WithdrawMsg
  {
    WithdrawMsg(ch.id, ch.partner.address, ch.partner.address, ch.partner.contractBalance + 1, 1,
                SafeInitialExpiration(0, ch.revealTimeout), Some(ch.partner.address), false)
  }

  lemma MoreFailsAssertion(ch: Channel, ch1: Channel, ch2: Channel)
    requires FreshChannel(ch) && ch.our.contractBalance + ch.partner.contractBalance < UINT256_MAX
    requires ch1 == ch.(our := ch1.our) && ch1.our.address == ch.our.address && ch1.our.balanceProof.None?
    requires ch1.our.onchainTotalWithdraw == 0 && ch1.our.contractBalance == ch.our.contractBalance
    requires |ch1.our.withdrawsPending| == 1 && ch1.our.withdrawsPending[0].total == ch.our.contractBalance
    requires ch1.our.coopSettle.Some? && ch1.our.coopSettle.value.totalPartner == ch.partner.contractBalance
    requires ch1.our.coopSettle.value.expiration == SafeInitialExpiration(0, ch.revealTimeout)
    requires ch2 == ch1.(partner := ch.partner.(contractBalance := ch.partner.contractBalance + 1))
    ensures CheckWithdrawRequest(ch2, RequestForMore(ch)).Accept? && !RequestMatchesCoopSettle(ch2, RequestForMore(ch))
  {
    assert ch1.our.withdrawsPending[1..] == [];
    assert TotalWithdraw(ch2.our) == ch.our.contractBalance && TotalWithdraw(ch2.partner) == 0;
    hide TotalWithdraw, PutWithdraw;
    RecordKeepsMaximum(ch2, RequestForMore(ch));
  }

  /** A deposit of the partner after our settlement was started, and its request for the new maximum. */
  lemma DepositThenRequestRaises(ch: Channel) returns (ch2: Channel)
    requires FreshChannel(ch) && ch.our.contractBalance + ch.partner.contractBalance < UINT256_MAX
    ensures var steps := [DoCoopSettle(0), Deposited(ch.partner.address, ch.partner.contractBalance + 1)];
      IsRun(ch, steps) && After(ch, steps) == Some(ch2)
    ensures CheckWithdrawRequest(ch2, RequestForMore(ch)).Accept?
    ensures !Allowed(ch2, GotWithdrawRequest(RequestForMore(ch), 0))
  {
    hide ActionCoopSettle, CheckWithdrawRequest, RequestMatchesCoopSettle, SafeInitialExpiration;
    var ch1 := ActionCoopSettle(ch, 0).channel;
    SettleFresh(ch);
    ch2 := Deposit(ch1, ch.partner.address, ch.partner.contractBalance + 1);
    MoreFailsAssertion(ch, ch1, ch2);
    hide FreshChannel, RequestForMore;
    RunOfTwo(ch, DoCoopSettle(0), Deposited(ch.partner.address, ch.partner.contractBalance + 1));
  }

  /** The partner's request for a settlement of nothing. */
  function NothingRequested(ch: Channel, expiration: int): WithdrawMsg
  {
    WithdrawMsg(ch.id, ch.partner.address, ch.partner.address, 0, 1, expiration, Some(ch.partner.address), true)
  }

  /** And its confirmation of a withdraw of nothing. */
  function NothingConfirmed(ch: Channel, expiration: int): WithdrawMsg
  {
    WithdrawMsg(ch.id, ch.our.address, ch.partner.address, 0, 2, expiration, Some(ch.partner.address), false)
  }

  /** Settlements of nothing from both sides, and the confirmation of ours. */
  lemma TwoSettlementsRaise(ch: Channel, expiration: int) returns (ch2: Channel)
    requires FreshChannel(ch) && ch.our.contractBalance == 0 && ch.partner.contractBalance == 0
    ensures var steps := [GotWithdrawRequest(NothingRequested(ch, expiration), 0), DoCoopSettle(0)];
      IsRun(ch, steps) && After(ch, steps) == Some(ch2)
    ensures var m := NothingConfirmed(ch, SafeInitialExpiration(0, ch.revealTimeout));
      CheckWithdrawConfirmation(ch2, m).Accept? && !Allowed(ch2, GotWithdrawConfirmation(m, 0))
  {
    hide ReceiveWithdrawRequest, ActionCoopSettle, RequestMatchesCoopSettle, CheckWithdrawConfirmation, FreshChannel,
      NothingJoined, SafeInitialExpiration;
    var request := NothingRequested(ch, expiration);
    JoinNothing(ch, request);
    var ch1 := ReceiveWithdrawRequest(ch, request, 0).channel;
    SettleNothing(ch1);
    ch2 := ActionCoopSettle(ch1, 0).channel;
    ConfirmNothing(ch1, ch2, SafeInitialExpiration(0, ch.revealTimeout));
    RunOfTwo(ch, GotWithdrawRequest(request, 0), DoCoopSettle(0));
  }

  lemma ConfirmNothing(ch: Channel, ch': Channel, expiration: int)
    requires NothingJoined(ch) && ch' == ch.(our := ch'.our) && ch'.our.coopSettle.Some?
    requires ch'.our.withdrawsPending == [Withdraw(0, expiration, NextNonce(ch.our))]
    requires ch'.our.onchainTotalWithdraw == 0 && ch'.our.address == ch.our.address
    ensures CheckWithdrawConfirmation(ch', NothingConfirmed(ch, expiration)).Accept?
    ensures !OneCoopSettle(ch')
  {
    assert ch'.partner.withdrawsPending == [ch'.partner.withdrawsPending[0]];
  }

  /** Both ends of a channel without deposits after the partner has started a settlement. */
  ghost predicate NothingJoined(ch: Channel)
  {
    && ch.our.contractBalance == ch.partner.contractBalance == 0
    && ch.our.onchainTotalWithdraw == ch.partner.onchainTotalWithdraw == 0
    && ch.our.balanceProof.None? && ch.partner.balanceProof.None? && ch.our.pendingLocks == ch.partner.pendingLocks == []
    && |ch.our.withdrawsPending| == |ch.partner.withdrawsPending| == 1
    && ch.our.withdrawsPending[0].total == ch.partner.withdrawsPending[0].total == 0
    && ch.partner.nonce == 1 && ch.our.coopSettle.None? && ch.partner.coopSettle.Some?
    && ch.close.None? && ch.settle.None?
  }

  lemma JoinNothing(ch: Channel, m: WithdrawMsg)
    requires FreshChannel(ch) && ch.our.contractBalance == 0 && ch.partner.contractBalance == 0
    requires m == NothingRequested(ch, m.expiration)
    ensures RequestMatchesCoopSettle(ch, m)
    ensures var ch1 := ReceiveWithdrawRequest(ch, m, 0).channel;
      NothingJoined(ch1) && ch1.id == ch.id && ch1.revealTimeout == ch.revealTimeout
      && ch1.our.address == ch.our.address && ch1.partner.address == ch.partner.address
  {
    assert RecordRequest(ch, m).partner.withdrawsPending == [Withdraw(0, m.expiration, 1)];
  }

  lemma SettleNothing(ch: Channel)
    requires NothingJoined(ch)
    ensures var ch' := ActionCoopSettle(ch, 0).channel; var expiration := SafeInitialExpiration(0, ch.revealTimeout);
      ch'.our.withdrawsPending == [Withdraw(0, expiration, NextNonce(ch.our))] && ch'.our.coopSettle.Some?
      && ch' == ch.(our := ch'.our) && ch'.our.onchainTotalWithdraw == 0 && ch'.our.address == ch.our.address
  {
    var w := ch.our.withdrawsPending[0];
    assert ch.our.withdrawsPending == [w];
  }
}
