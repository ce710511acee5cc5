/**
 The life of a channel: its status only moves forward, settling and updating are each requested at
 most once and settling not before the settlement window is over, and the balance proof handed to
 the contract is the newest one the channel will ever have accepted.
 */
module Lifecycle {
  import opened LockCodec
  import opened LockMaps
  import opened ChannelState
  import opened ChannelValidation
  import opened ChannelTransitions
  import opened ChannelRuns
  import opened Nonces

  function Rank(status: Status): nat
  {
    match status
    case Opened => 0
    case Closing => 1
    case Closed => 2
    case Settling => 3
    case Settled => 4
    case Unusable => 5
  }

  /** A transaction of the channel is running, or finished successfully at a known block. */
  predicate Sane(tx: Option<TxStatus>)
  {
    tx.None?
    || (tx.value.finished.None? && tx.value.result.None?)
    || (tx.value.finished.Some? && tx.value.finished.value > 0 && tx.value.result == Some(Success))
  }

  predicate TransactionsSane(ch: Channel)
  {
    Sane(ch.close) && Sane(ch.settle)
  }

  lemma OtherStepsKeepTransactions(ch: Channel, s: Step)
    requires !(s.NewBlock? || s.DoClose? || s.WasClosed? || s.WasSettled?)
    requires Allowed(ch, s) && Apply(ch, s).channel.Some?
    ensures var ch' := Apply(ch, s).channel.value; ch'.close == ch.close && ch'.settle == ch.settle
  {
    hide CheckTransfer, CheckRefund, CheckUnlock, CheckLockExpired, CheckTotalWithdraw, CheckCoopSettle,
      CheckWithdrawRequest, CheckWithdrawConfirmation, CheckWithdrawExpired, CheckRequestUnderCoopSettle,
      NoLocksRoot, MaxWithdraw, PutWithdraw, DropWithdraw, FindWithdraw, GetStatus,
      Without, AmountLocked, Locksroot, RemoveFirst, GetLock, CanSendTransfer, CanSendUnlock;
  }

  /** The status never moves back, never becomes unusable, and a closed channel knows its block. */
  lemma StepForward(ch: Channel, s: Step)
    requires TransactionsSane(ch) && Allowed(ch, s) && Apply(ch, s).channel.Some?
    ensures var ch' := Apply(ch, s).channel.value;
      TransactionsSane(ch') && Rank(GetStatus(ch)) <= Rank(GetStatus(ch')) <= 4 && CloseRecorded(ch')
  {
    if s.NewBlock? || s.DoClose? || s.WasClosed? || s.WasSettled? {
      hide ExpireWithdraws, NoLocksRoot;
    } else {
      hide Apply, Allowed;
      OtherStepsKeepTransactions(ch, s);
    }
  }

  lemma {:induction false} RunForward(ch: Channel, steps: seq<Step>)
    requires TransactionsSane(ch) && IsRun(ch, steps) && After(ch, steps).Some?
    ensures var ch' := After(ch, steps).value;
      TransactionsSane(ch') && Rank(GetStatus(ch)) <= Rank(GetStatus(ch'))
    decreases steps
  {
    hide Apply, Allowed, GetStatus, TransactionsSane;
    if steps != [] {
      StepForward(ch, steps[0]);
      RunForward(Apply(ch, steps[0]).channel.value, steps[1..]);
    }
  }

  // ---------- what a run has sent and accepted so far ----------

  /** The balance proof a step makes the channel accept from its partner. */
  function AcceptedProof(ch: Channel, s: Step): Option<BalanceProof>
  {
    match s
    case GotTransfer(m) => if Accepted(ch, s) then Some(m.proof) else None
    case GotRefund(m, _) => if Accepted(ch, s) then Some(m.proof) else None
    case GotUnlock(m) => if Accepted(ch, s) then Some(m.proof) else None
    case GotLockExpired(m, _) => if Accepted(ch, s) then Some(m.proof) else None
    case _ => None
  }

  function AcceptedProofs(ch: Channel, steps: seq<Step>): seq<BalanceProof>
    requires IsRun(ch, steps)
    decreases steps
  {
    if steps == [] then []
    else
      var p, next := AcceptedProof(ch, steps[0]), Apply(ch, steps[0]).channel;
      (if p.Some? then [p.value] else []) + (if next.None? then [] else AcceptedProofs(next.value, steps[1..]))
  }

  ghost predicate AtMostOnce(events: seq<Event>, kind: Event -> bool)
  {
    forall i, j :: 0 <= i < j < |events| ==> !(kind(events[i]) && kind(events[j]))
  }

  function IsSettle(): Event -> bool { (e: Event) => e.ContractSendSettle? }

  function IsUpdate(): Event -> bool { (e: Event) => e.ContractSendUpdate? }

  /** The proof an event hands to the contract. */
  function Submitted(e: Event): Option<Option<BalanceProof>>
  {
    if e.ContractSendClose? then Some(e.closing)
    else if e.ContractSendUpdate? then Some(Some(e.proof))
    else None
  }

  ghost predicate Newest(proofs: seq<BalanceProof>, p: Option<BalanceProof>)
  {
    && (p == if proofs == [] then None else Some(proofs[|proofs| - 1]))
    && (forall i, j :: 0 <= i < j < |proofs| ==> proofs[i].nonce < proofs[j].nonce)
  }

  /** What holds of a channel, of all it has sent and of all the proofs it has accepted. */
  ghost predicate History(ch: Channel, events: seq<Event>, proofs: seq<BalanceProof>)
  {
    && AtMostOnce(events, IsSettle()) && (ch.settle.None? ==> ContractSendSettle !in events)
    && AtMostOnce(events, IsUpdate())
    && (ch.update.None? ==> forall e :: e in events ==> !e.ContractSendUpdate?)
    && Newest(proofs, ch.partner.balanceProof)
    && (ch.partner.balanceProof.Some? ==> ch.partner.balanceProof.value.nonce <= ch.partner.nonce)
    && (forall e :: e in events && Submitted(e).Some? ==> Submitted(e).value == ch.partner.balanceProof)
    && (GetStatus(ch) == Opened ==> forall e :: e in events ==> Submitted(e).None?)
  }

  // One step at a time, by what it may send.

  lemma {:induction false} ExpirySendsOnlyExpired(e: End, ws: seq<Withdraw>, block: nat)
    ensures forall x :: x in ExpireWithdraws(e, ws, block).events ==> x.SendWithdrawExpired?
    decreases ws
  {
    if ws != [] && WithdrawIsExpired(ws[0], block) {
      ExpirySendsOnlyExpired(ExpireOne(e, ws[0]), ws[1..], block);
    }
  }

  /** A settle transaction is sent at most once per step, and only when the settlement window is over. */
  lemma SettleSent(ch: Channel, s: Step)
    requires Allowed(ch, s) && ContractSendSettle in Apply(ch, s).events
    ensures s.NewBlock? && GetStatus(ch) == Closed
    ensures s.block > ch.close.value.finished.value + ch.settleTimeout
    ensures AtMostOnce(Apply(ch, s).events, IsSettle())
    ensures ch.settle.None? && Apply(ch, s).channel.Some? && Apply(ch, s).channel.value.settle.Some?
  {
    hide CheckTransfer, CheckRefund, CheckUnlock, CheckLockExpired, CheckTotalWithdraw, CheckCoopSettle,
      CheckWithdrawRequest, CheckWithdrawConfirmation, CheckWithdrawExpired, CheckRequestUnderCoopSettle,
      ExpireWithdraws, NoLocksRoot, MaxWithdraw, PutWithdraw, DropWithdraw, FindWithdraw,
      Without, AmountLocked, Locksroot, RemoveFirst, GetLock, CanSendTransfer, CanSendUnlock;
    if s.NewBlock? {
      ExpirySendsOnlyExpired(ch.our, ch.our.withdrawsPending, s.block);
    }
  }

  /** A proof goes to the contract only while the channel is not yet closed, and it is the current one. */
  lemma ProofSubmitted(ch: Channel, s: Step, e: Event)
    requires Allowed(ch, s) && e in Apply(ch, s).events && Submitted(e).Some?
    ensures Apply(ch, s).events == [e] && Apply(ch, s).channel.Some?
    ensures Submitted(e).value == ch.partner.balanceProof
    ensures var ch' := Apply(ch, s).channel.value;
      ch'.partner == ch.partner && ch'.settle.None? && ch'.close.Some?
      && (e.ContractSendUpdate? ==> ch.update.None? && ch'.update.Some?)
    ensures e.ContractSendUpdate? ==>
      s.WasClosed? && s.closer != ch.our.address && e.expiration == s.block + ch.settleTimeout
  {
    hide CheckTransfer, CheckRefund, CheckUnlock, CheckLockExpired, CheckTotalWithdraw, CheckCoopSettle,
      CheckWithdrawRequest, CheckWithdrawConfirmation, CheckWithdrawExpired, CheckRequestUnderCoopSettle,
      ExpireWithdraws, NoLocksRoot, MaxWithdraw, PutWithdraw, DropWithdraw, FindWithdraw,
      Without, AmountLocked, Locksroot, RemoveFirst, GetLock, CanSendTransfer, CanSendUnlock;
    if s.NewBlock? {
      ExpirySendsOnlyExpired(ch.our, ch.our.withdrawsPending, s.block);
    }
  }

  /** The partner's proof changes only by acceptance, and acceptance needs an open channel. */
  lemma ProofChanges(ch: Channel, s: Step)
    requires Allowed(ch, s) && Apply(ch, s).channel.Some?
    ensures var ch' := Apply(ch, s).channel.value; var p := AcceptedProof(ch, s);
      if p.Some? then
        GetStatus(ch) == Opened && ch'.partner.balanceProof == p && p.value.nonce == NextNonce(ch.partner)
        && ch'.partner.nonce == p.value.nonce
      else ch'.partner.balanceProof == ch.partner.balanceProof
  {
    hide AmountLocked, CurrentLocked, Encode, Locksroot, RemoveFirst, GetLock, IsLockExpired,
      IsLockPending, Distributable, LocksWith, LocksWithout, RefundMatches, CheckTotalWithdraw, CheckCoopSettle,
      CheckWithdrawRequest, CheckWithdrawConfirmation, CheckWithdrawExpired, CheckRequestUnderCoopSettle,
      ExpireWithdraws, NoLocksRoot, MaxWithdraw, PutWithdraw, DropWithdraw, FindWithdraw, Without;
  }

  lemma AtMostOnceConcat(a: seq<Event>, b: seq<Event>, kind: Event -> bool)
    requires AtMostOnce(a, kind) && AtMostOnce(b, kind)
    requires (forall e :: e in a ==> !kind(e)) || (forall e :: e in b ==> !kind(e))
    ensures AtMostOnce(a + b, kind)
  {
    forall i, j | 0 <= i < j < |a + b| ensures !(kind((a + b)[i]) && kind((a + b)[j])) {
      if i < |a| { assert a[i] in a; } else { assert b[i - |a|] in b; }
      if j < |a| { assert a[j] in a; } else { assert b[j - |a|] in b; }
    }
  }

  lemma StepSettles(ch: Channel, s: Step, events: seq<Event>)
    requires Allowed(ch, s) && Apply(ch, s).channel.Some?
    requires AtMostOnce(events, IsSettle()) && (ch.settle.None? ==> ContractSendSettle !in events)
    ensures AtMostOnce(events + Apply(ch, s).events, IsSettle())
    ensures Apply(ch, s).channel.value.settle.None? ==> ContractSendSettle !in events + Apply(ch, s).events
  {
    StepKeepsSettle(ch, s);
    hide Apply, Allowed;
    var sent := Apply(ch, s).events;
    if ContractSendSettle in sent { SettleSent(ch, s); }
    AtMostOnceConcat(events, sent, IsSettle());
  }

  lemma StepKeepsSettle(ch: Channel, s: Step)
    requires Allowed(ch, s) && Apply(ch, s).channel.Some?
    ensures ch.settle.Some? ==> Apply(ch, s).channel.value.settle.Some?
  {
    if !(s.NewBlock? || s.DoClose? || s.WasClosed? || s.WasSettled?) {
      hide Apply, Allowed;
      OtherStepsKeepTransactions(ch, s);
    }
  }

  lemma StepKeepsUpdate(ch: Channel, s: Step)
    requires Allowed(ch, s) && Apply(ch, s).channel.Some?
    ensures ch.update.Some? ==> Apply(ch, s).channel.value.update.Some?
  {
    hide CheckTransfer, CheckRefund, CheckUnlock, CheckLockExpired, CheckTotalWithdraw, CheckCoopSettle,
      CheckWithdrawRequest, CheckWithdrawConfirmation, CheckWithdrawExpired, CheckRequestUnderCoopSettle,
      NoLocksRoot, MaxWithdraw, PutWithdraw, DropWithdraw, FindWithdraw, GetStatus, Finish, ExpireWithdraws,
      Without, AmountLocked, Locksroot, RemoveFirst, GetLock, CanSendTransfer, CanSendUnlock;
  }

  lemma StepUpdates(ch: Channel, s: Step, events: seq<Event>)
    requires Allowed(ch, s) && Apply(ch, s).channel.Some?
    requires AtMostOnce(events, IsUpdate())
    requires ch.update.None? ==> forall e :: e in events ==> !e.ContractSendUpdate?
    ensures AtMostOnce(events + Apply(ch, s).events, IsUpdate())
    ensures Apply(ch, s).channel.value.update.None? ==>
      forall e :: e in events + Apply(ch, s).events ==> !e.ContractSendUpdate?
  {
    StepKeepsUpdate(ch, s);
    hide Apply, Allowed;
    var sent := Apply(ch, s).events;
    if e :| e in sent && e.ContractSendUpdate? { ProofSubmitted(ch, s, e); }
    AtMostOnceConcat(events, sent, IsUpdate());
  }

  lemma StepNewest(ch: Channel, s: Step, proofs: seq<BalanceProof>)
    requires Allowed(ch, s) && Apply(ch, s).channel.Some?
    requires Newest(proofs, ch.partner.balanceProof)
    requires ch.partner.balanceProof.Some? ==> ch.partner.balanceProof.value.nonce <= ch.partner.nonce
    ensures var ch' := Apply(ch, s).channel.value; var p := AcceptedProof(ch, s);
      Newest(proofs + (if p.Some? then [p.value] else []), ch'.partner.balanceProof)
      && (ch'.partner.balanceProof.Some? ==> ch'.partner.balanceProof.value.nonce <= ch'.partner.nonce)
  {
    hide Apply, Allowed, AcceptedProof;
    ProofChanges(ch, s);
    PartnerNonceStep(ch, s);
  }

  lemma StepSubmits(ch: Channel, s: Step, events: seq<Event>)
    requires TransactionsSane(ch) && Allowed(ch, s) && Apply(ch, s).channel.Some?
    requires forall e :: e in events && Submitted(e).Some? ==> Submitted(e).value == ch.partner.balanceProof
    requires GetStatus(ch) == Opened ==> forall e :: e in events ==> Submitted(e).None?
    ensures var ch' := Apply(ch, s).channel.value; var all := events + Apply(ch, s).events;
      (forall e :: e in all && Submitted(e).Some? ==> Submitted(e).value == ch'.partner.balanceProof)
      && (GetStatus(ch') == Opened ==> forall e :: e in all ==> Submitted(e).None?)
  {
    hide Apply, Allowed, AcceptedProof;
    var ch' := Apply(ch, s).channel.value;
    ProofChanges(ch, s);
    StepForward(ch, s);
    if e :| e in Apply(ch, s).events && Submitted(e).Some? { ProofSubmitted(ch, s, e); }
  }

  lemma StepHistory(ch: Channel, s: Step, events: seq<Event>, proofs: seq<BalanceProof>)
    requires TransactionsSane(ch) && History(ch, events, proofs) && Allowed(ch, s) && Apply(ch, s).channel.Some?
    ensures var p := AcceptedProof(ch, s);
      History(Apply(ch, s).channel.value, events + Apply(ch, s).events,
              proofs + if p.Some? then [p.value] else [])
  {
    hide Apply, Allowed, AcceptedProof, AtMostOnce, Newest, GetStatus, Submitted, TransactionsSane;
    StepSettles(ch, s, events);
    StepUpdates(ch, s, events);
    StepNewest(ch, s, proofs);
    StepSubmits(ch, s, events);
  }

  lemma {:induction false} RunHistory(
    ch: Channel, steps: seq<Step>, events: seq<Event>, proofs: seq<BalanceProof>)
    requires TransactionsSane(ch) && History(ch, events, proofs)
    requires IsRun(ch, steps) && After(ch, steps).Some?
    ensures History(After(ch, steps).value, events + Emitted(ch, steps), proofs + AcceptedProofs(ch, steps))
    decreases steps
  {
    hide Apply, Allowed, AcceptedProof, History, TransactionsSane;
    if steps == [] {
      assert events + [] == events && proofs + [] == proofs;
    } else {
      var r, p := Apply(ch, steps[0]), AcceptedProof(ch, steps[0]);
      var accepted := if p.Some? then [p.value] else [];
      StepHistory(ch, steps[0], events, proofs);
      StepForward(ch, steps[0]);
      RunHistory(r.channel.value, steps[1..], events + r.events, proofs + accepted);
      assert events + Emitted(ch, steps) == events + r.events + Emitted(r.channel.value, steps[1..]);
      assert proofs + AcceptedProofs(ch, steps) == proofs + accepted + AcceptedProofs(r.channel.value, steps[1..]);
    }
  }

  lemma FreshHistory(ch: Channel)
    requires FreshChannel(ch)
    ensures TransactionsSane(ch) && History(ch, [], [])
  {
    hide GetStatus, Submitted;
  }

  /** Every proof handed to the contract is the last and newest of all the accepted ones. */
  ghost predicate SubmitsNewest(events: seq<Event>, proofs: seq<BalanceProof>)
  {
    forall e :: e in events && Submitted(e).Some? ==>
      Submitted(e).value == (if proofs == [] then None else Some(proofs[|proofs| - 1]))
      && forall p :: p in proofs ==> p.nonce <= Submitted(e).value.value.nonce
  }

  lemma HistorySubmitsNewest(ch: Channel, events: seq<Event>, proofs: seq<BalanceProof>)
    requires History(ch, events, proofs)
    ensures SubmitsNewest(events, proofs)
  {
    hide AtMostOnce, GetStatus, Submitted;
    forall p | p in proofs ensures p.nonce <= proofs[|proofs| - 1].nonce {
      var i :| 0 <= i < |proofs| && proofs[i] == p;
    }
  }

  lemma DropIsSilent(ch: Channel, s: Step)
    requires Allowed(ch, s) && Apply(ch, s).channel.None?
    ensures Apply(ch, s).events == [] && AcceptedProof(ch, s).None?
  {
    hide CheckTransfer, CheckRefund, CheckUnlock, CheckLockExpired, NoLocksRoot, GetStatus, CanSendTransfer,
      CanSendUnlock, RequestMatchesCoopSettle;
  }

  /** The step that drops the channel sends and accepts nothing. */
  lemma {:induction false} WithoutLast(ch: Channel, steps: seq<Step>)
    requires IsRun(ch, steps) && After(ch, steps).None?
    ensures steps != []
    ensures var kept := steps[..|steps| - 1];
      IsRun(ch, kept) && After(ch, kept).Some?
      && Emitted(ch, steps) == Emitted(ch, kept) && AcceptedProofs(ch, steps) == AcceptedProofs(ch, kept)
    decreases steps
  {
    hide Apply, Allowed, AcceptedProof;
    var next := Apply(ch, steps[0]).channel;
    if next.None? {
      DropIsSilent(ch, steps[0]);
      assert steps[..0] == [];
    } else {
      var rest := steps[1..];
      WithoutLast(next.value, rest);
      var kept := steps[..|steps| - 1];
      assert kept[0] == steps[0] && kept[1..] == rest[..|rest| - 1];
    }
  }

  /**
   Over every run of a channel: one settle, one update, and every proof handed to the contract is the
   last and newest of all the proofs the whole run accepts, before or after.
   */
  lemma RunLifecycle(ch: Channel, steps: seq<Step>)
    requires FreshChannel(ch) && IsRun(ch, steps)
    ensures AtMostOnce(Emitted(ch, steps), IsSettle()) && AtMostOnce(Emitted(ch, steps), IsUpdate())
    ensures SubmitsNewest(Emitted(ch, steps), AcceptedProofs(ch, steps))
  {
    hide FreshChannel, IsRun, After, Emitted, AcceptedProofs, AtMostOnce, SubmitsNewest, GetStatus, Newest;
    var kept := steps;
    if After(ch, steps).None? {
      WithoutLast(ch, steps);
      kept := steps[..|steps| - 1];
    }
    var ch', events, proofs := After(ch, kept).value, Emitted(ch, kept), AcceptedProofs(ch, kept);
    FreshHistory(ch);
    RunHistory(ch, kept, [], []);
    assert [] + events == events && [] + proofs == proofs;
    HistorySubmitsNewest(ch', events, proofs);
  }
}
