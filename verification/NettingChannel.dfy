/**
 The channel as the source keeps it: two end-state objects whose fields and dictionaries are
 updated in place. Every operation is proved against its function in `ChannelTransitions`; hence the
 object goes through exactly the runs of `ChannelRuns`, and whole runs of it keep what is proved of
 those.
 */
module NettingChannel {
  import opened LockCodec
  import opened LockMaps
  import opened ChannelState
  import opened ChannelValidation
  import opened ChannelTransitions
  import opened ChannelRuns
  import opened AccountedRuns
  import opened Solvency
  import opened Sanity

  /** One turn of the expiry loop, or its end. */
  lemma ExpireTurn(e: End, ws: seq<Withdraw>, block: nat)
    ensures ws == [] || !WithdrawIsExpired(ws[0], block) ==> ExpireWithdraws(e, ws, block) == Expiry(e, [])
    ensures ws != [] && WithdrawIsExpired(ws[0], block) ==>
      var rest := ExpireWithdraws(ExpireOne(e, ws[0]), ws[1..], block);
      ExpireWithdraws(e, ws, block)
      == Expiry(rest.end, [SendWithdrawExpired(ws[0].total, NextNonce(e), ws[0].expiration)] + rest.events)
  {
  }

  class EndState {
    const address: Address
    var contractBalance: nat
    var onchainTotalWithdraw: nat
    var withdrawsPending: seq<Withdraw>
    var withdrawsExpired: seq<Withdraw>
    var coopSettle: Option<CoopSettle>
    var locked: LockMap
    var unlocked: ProofMap
    var onchain: ProofMap
    var balanceProof: Option<BalanceProof>
    var pendingLocks: seq<Bytes>
    var onchainLocksroot: Hash
    var nonce: nat

    constructor (address: Address, contractBalance: nat, noLocks: Hash)
      ensures View() == End(address, contractBalance, 0, [], [], None, map[], map[], map[], None, [], noLocks, 0)
    {
      this.address, this.contractBalance, onchainTotalWithdraw := address, contractBalance, 0;
      withdrawsPending, withdrawsExpired, coopSettle := [], [], None;
      locked, unlocked, onchain := map[], map[], map[];
      balanceProof, pendingLocks, onchainLocksroot, nonce := None, [], noLocks, 0;
    }

    function View(): End
      reads this
    {
      End(address, contractBalance, onchainTotalWithdraw, withdrawsPending, withdrawsExpired, coopSettle,
          locked, unlocked, onchain, balanceProof, pendingLocks, onchainLocksroot, nonce)
    }

    method AcceptProof(proof: BalanceProof, pending: seq<Bytes>)
      modifies `balanceProof, `nonce, `pendingLocks
      ensures View() == WithProof(old(View()), proof, pending)
    {
      balanceProof := Some(proof);
      nonce := proof.nonce;
      pendingLocks := pending;
    }

    method AddLockedLock(lock: Lock)
      modifies `locked
      ensures View() == AddLock(old(View()), lock)
    {
      locked := locked[lock.secrethash := lock];
    }

    method DelUnclaimed(h: Hash)
      modifies `locked, `unlocked
      ensures View() == DelUnclaimedLock(old(View()), h)
    {
      if h in locked { locked := locked - {h}; } else { assert locked == Without(locked, h); }
      if h in unlocked { unlocked := unlocked - {h}; } else { assert unlocked == Without(unlocked, h); }
    }

    method Del(h: Hash)
      modifies `locked, `unlocked, `onchain
      ensures View() == DelLock(old(View()), h)
    {
      DelUnclaimed(h);
      if h in onchain { onchain := onchain - {h}; } else { assert onchain == Without(onchain, h); }
    }

    method RegisterSecret(secret: Bytes, h: Hash)
      modifies `locked, `unlocked
      ensures View() == RegisterSecretEnd(old(View()), secret, h)
    {
      if h in locked {
        var lock := locked[h];
        locked := locked - {h};
        unlocked := unlocked[h := UnlockProof(lock, secret)];
      }
    }

    method RegisterOnchainSecret(secret: Bytes, h: Hash, revealBlock: nat, deleteLock: bool)
      modifies `locked, `unlocked, `onchain
      ensures View() == RegisterOnchainEnd(old(View()), secret, h, revealBlock, deleteLock)
    {
      var pending: Option<Lock> := None;
      if h in locked { pending := Some(locked[h]); }
      if h in unlocked { pending := Some(unlocked[h].lock); }
      if pending.Some? {
        if pending.value.expiration < revealBlock { return; }
        if deleteLock { Del(h); }
        onchain := onchain[h := UnlockProof(pending.value, secret)];
      }
    }

    method AddWithdraw(w: Withdraw)
      modifies `withdrawsPending, `nonce
      ensures View() == old(View()).(
        withdrawsPending := PutWithdraw(old(withdrawsPending), w), nonce := w.nonce)
    {
      nonce := w.nonce;
      withdrawsPending := PutWithdraw(withdrawsPending, w);
    }

    method UpdateContractBalance(balance: nat)
      modifies `contractBalance
      ensures View() == old(View()).(contractBalance := Max(balance, old(contractBalance)))
    {
      if balance > contractBalance { contractBalance := balance; }
    }

    method OnchainWithdraw(total: nat)
      modifies `withdrawsPending, `onchainTotalWithdraw
      ensures View() == WithdrawnOnchain(old(View()), total)
    {
      withdrawsPending := DropWithdraw(withdrawsPending, total);
      onchainTotalWithdraw := total;
    }

    /** `events_for_expired_withdraws`: a loop over a copy of the pending withdraws. */
    method ExpireWithdraws(block: nat) returns (events: seq<Event>)
      modifies `nonce, `coopSettle, `withdrawsExpired, `withdrawsPending
      ensures Expiry(View(), events)
           == ChannelTransitions.ExpireWithdraws(old(View()), old(withdrawsPending), block)
    {
      hide DropWithdraw, ChannelTransitions.ExpireWithdraws;
      ghost var start := View();
      var ws := withdrawsPending;
      events := [];
      var i := 0;
      while i < |ws|
        invariant 0 <= i <= |ws|
        invariant var rest := ChannelTransitions.ExpireWithdraws(View(), ws[i..], block);
          ChannelTransitions.ExpireWithdraws(start, ws, block) == Expiry(rest.end, events + rest.events)
      {
        var w := ws[i];
        ExpireTurn(View(), ws[i..], block);
        if !WithdrawIsExpired(w, block) { break; }
        assert ws[i..][1..] == ws[i + 1..];
        ghost var before := View();
        nonce := nonce + 1;
        if coopSettle.Some? && coopSettle.value.totalInitiator == w.total && coopSettle.value.expiration == w.expiration {
          coopSettle := None;
        }
        withdrawsExpired := withdrawsExpired + [w];
        withdrawsPending := DropWithdraw(withdrawsPending, w.total);
        assert View() == ExpireOne(before, w);
        events := events + [SendWithdrawExpired(w.total, nonce, w.expiration)];
        i := i + 1;
      }
      ExpireTurn(View(), ws[i..], block);
    }
  }

  class Netting {
    const keccak: Bytes -> Hash
    const id: CanonicalId
    const settleTimeout: nat
    const our: EndState
    const partner: EndState
    var revealTimeout: nat
    var close: Option<TxStatus>
    var settle: Option<TxStatus>
    var update: Option<TxStatus>

    ghost predicate Valid() { our != partner }

    function View(): Channel
      reads this, our, partner
    {
      Channel(keccak, id, revealTimeout, settleTimeout, our.View(), partner.View(), close, settle, update)
    }

    constructor (keccak: Bytes -> Hash, id: CanonicalId, revealTimeout: nat, settleTimeout: nat,
                 our: EndState, partner: EndState)
      requires our != partner
      ensures Valid() && this.our == our && this.partner == partner
      ensures View() == Channel(
        keccak, id, revealTimeout, settleTimeout, old(our.View()), old(partner.View()), None, None, None)
    {
      this.keccak, this.id, this.our, this.partner := keccak, id, our, partner;
      this.revealTimeout, this.settleTimeout := revealTimeout, settleTimeout;
      close, settle, update := None, None, None;
    }

    // ---------- sending ----------

    method SendLockedTransfer(lock: Lock) returns (events: seq<Event>)
      requires Valid() && CanSendTransfer(View(), lock)
      modifies our
      ensures Next(View(), events) == SendTransfer(old(View()), lock)
    {
      hide AmountLocked, Encode, Locksroot, Distributable, GetStatus;
      var pending := our.pendingLocks + [Encode(lock)];
      var proof := OwnProof(View(), Transferred(our.View()), AmountLocked(our.View()) + lock.amount, pending);
      our.AcceptProof(proof, pending);
      our.AddLockedLock(lock);
      events := [Event.SendLockedTransfer(lock, proof)];
    }

    method SendUnlock(h: Hash, block: nat) returns (events: seq<Event>)
      requires Valid() && CanSendUnlock(View(), h, block)
      modifies our
      ensures Next(View(), events) == SendUnlockFor(old(View()), h, block)
    {
      hide AmountLocked, Encode, GetLock, RemoveFirst, Locksroot, Without, IsLockExpired, IsLockPending, GetStatus;
      var lock := GetLock(our.View(), h).value;
      var pending := RemoveFirst(our.pendingLocks, Encode(lock));
      var proof := OwnProof(
        View(), Transferred(our.View()) + lock.amount, AmountLocked(our.View()) - lock.amount, pending);
      our.AcceptProof(proof, pending);
      our.Del(lock.secrethash);
      events := [Event.SendUnlock(h, proof)];
    }

    method SendLockExpired(lock: Lock) returns (events: seq<Event>)
      requires Valid() && CanSendLockExpired(View())
      modifies our
      ensures Next(View(), events) == SendLockExpiredFor(old(View()), lock)
    {
      var pending := LocksWithout(our.pendingLocks, Encode(lock));
      if pending.None? { return []; }
      var proof := OwnProof(
        View(), Transferred(our.View()), AmountLocked(our.View()) - lock.amount, pending.value);
      our.AcceptProof(proof, pending.value);
      our.DelUnclaimed(lock.secrethash);
      events := [Event.SendLockExpired(lock.secrethash, proof)];
    }

    method SendWithdrawRequest(total: int, expiration: int, isCoopSettle: bool) returns (events: seq<Event>)
      requires Valid()
      modifies our
      ensures Next(View(), events) == SendWithdraw(old(View()), total, expiration, isCoopSettle)
    {
      if !PriorToClosed(View()) { return []; }
      var w := Withdraw(total, expiration, NextNonce(our.View()));
      our.AddWithdraw(w);
      events := [Event.SendWithdrawRequest(total, our.nonce, expiration, isCoopSettle)];
    }

    // ---------- receiving ----------

    method HandleLockedTransfer(m: Transfer) returns (events: seq<Event>)
      requires Valid()
      modifies partner
      ensures Next(View(), events) == ReceiveTransfer(old(View()), m)
    {
      var check := CheckTransfer(View(), m.proof, m.lock);
      if check.Refuse? { return [Invalid(check.reason)]; }
      partner.AcceptProof(m.proof, check.value);
      partner.AddLockedLock(m.lock);
      events := [SendProcessed];
    }

    method HandleRefund(m: Transfer, original: Transfer) returns (events: seq<Event>)
      requires Valid()
      modifies partner
      ensures Next(View(), events) == ReceiveRefund(old(View()), m, original)
    {
      var check := CheckRefund(View(), m, original);
      if check.Refuse? { return [Invalid(check.reason)]; }
      partner.AcceptProof(m.proof, check.value);
      partner.AddLockedLock(m.lock);
      events := [SendProcessed];
    }

    method HandleUnlock(m: UnlockMsg) returns (events: seq<Event>)
      requires Valid()
      modifies partner
      ensures Next(View(), events) == ReceiveUnlock(old(View()), m)
    {
      var check := CheckUnlock(View(), m);
      if check.Refuse? { return [Invalid(check.reason)]; }
      partner.AcceptProof(m.proof, check.value);
      partner.Del(m.secrethash);
      events := [SendProcessed];
    }

    method HandleLockExpired(m: LockExpiredMsg, block: nat) returns (events: seq<Event>)
      requires Valid()
      modifies partner
      ensures Next(View(), events) == ReceiveLockExpired(old(View()), m, block)
    {
      var check := CheckLockExpired(View(), m, block);
      if check.Refuse? { return [Invalid(check.reason)]; }
      partner.AcceptProof(m.proof, check.value);
      partner.DelUnclaimed(m.secrethash);
      events := [SendProcessed];
    }

    method RegisterOffchainSecret(secret: Bytes, h: Hash)
      requires Valid()
      modifies our, partner
      ensures View() == RegisterSecret(old(View()), secret, h)
    {
      our.RegisterSecret(secret, h);
      partner.RegisterSecret(secret, h);
    }

    method RegisterOnchain(secret: Bytes, h: Hash, revealBlock: nat, deleteLock: bool)
      requires Valid()
      modifies our, partner
      ensures View() == RegisterOnchainSecret(old(View()), secret, h, revealBlock, deleteLock)
    {
      our.RegisterOnchainSecret(secret, h, revealBlock, deleteLock);
      partner.RegisterOnchainSecret(secret, h, revealBlock, deleteLock);
    }

    // ---------- withdraws ----------

    method HandleActionWithdraw(total: int, block: nat) returns (events: seq<Event>)
      requires Valid()
      modifies our
      ensures Next(View(), events) == ActionWithdraw(old(View()), total, block)
    {
      var check := CheckTotalWithdraw(View(), total, false);
      if check.Refuse? { return [Invalid(check.reason)]; }
      events := SendWithdrawRequest(total, SafeInitialExpiration(block, revealTimeout), false);
    }

    method HandleActionCoopSettle(block: nat) returns (events: seq<Event>)
      requires Valid()
      modifies our
      ensures Next(View(), events) == ActionCoopSettle(old(View()), block)
    {
      var ourMax := MaxWithdraw(our.View(), partner.View());
      var partnerMax := MaxWithdraw(partner.View(), our.View());
      var check := CheckCoopSettle(View(), ourMax);
      if check.Refuse? { return [Invalid(check.reason)]; }
      var expiration := SafeInitialExpiration(block, revealTimeout);
      our.coopSettle := Some(CoopSettle(ourMax, partnerMax, expiration, false, false, None));
      events := SendWithdrawRequest(ourMax, expiration, true);
    }

    /** `events_for_coop_settle`. */
    method EventsForCoopSettle(block: nat) returns (events: seq<Event>)
      requires Valid() && our.coopSettle.Some?
      modifies our`coopSettle
      ensures Next(View(), events) == SendCoopSettle(old(View()), block)
    {
      var coop := our.coopSettle.value;
      if coop.requestSigned && coop.confirmationSigned && coop.expiration >= block - revealTimeout {
        our.coopSettle := Some(coop.(tx := Some(TxStatus(Some(block), None, None))));
        return [ContractSendCoopSettle(coop.totalInitiator, coop.totalPartner, coop.expiration)];
      }
      return [];
    }

    /** The part of the handler between recording the request and confirming it. */
    method Join(m: WithdrawMsg, block: nat) returns (events: seq<Event>)
      requires Valid()
      modifies our, partner`coopSettle
      ensures Next(View(), events) == JoinCoopSettle(old(View()), m, block)
    {
      events := [];
      if our.coopSettle.Some? {
        our.coopSettle := Some(our.coopSettle.value.(requestSigned := true));
        events := EventsForCoopSettle(block);
      } else if m.coopSettle {
        var ourMax := MaxWithdraw(our.View(), partner.View());
        partner.coopSettle := Some(CoopSettle(m.total, ourMax, m.expiration, true, false, None));
        events := SendWithdrawRequest(ourMax, m.expiration, false);
        events := events + events;
      }
    }

    /** Raises when the request does not ask for the share announced in our own settlement. */
    method HandleWithdrawRequest(m: WithdrawMsg, block: nat) returns (raised: bool, events: seq<Event>)
      requires Valid()
      modifies our, partner
      ensures raised <==> !RequestMatchesCoopSettle(old(View()), m)
      ensures raised ==> View() == RecordRequest(old(View()), m)
      ensures !raised ==> Next(View(), events) == ReceiveWithdrawRequest(old(View()), m, block)
    {
      var check := CheckWithdrawRequest(View(), m);
      if check.Refuse? { return false, [Invalid(check.reason)]; }
      ghost var start := View();
      partner.AddWithdraw(Withdraw(m.total, m.expiration, m.nonce));
      assert View() == RecordRequest(start, m);
      check := CheckRequestUnderCoopSettle(View(), m);
      if check.Refuse? { return false, [Invalid(check.reason)]; }
      if our.coopSettle.Some? && our.coopSettle.value.totalPartner != m.total { return true, []; }
      hide CheckWithdrawRequest, CheckRequestUnderCoopSettle, JoinCoopSettle;
      events := Join(m, block);
      our.nonce := NextNonce(our.View());
      events := events + [SendWithdrawConfirmation(m.total, our.nonce, m.expiration)];
      raised := false;
    }

    /** Raises when both sides have started a settlement. */
    method HandleWithdrawConfirmation(m: WithdrawMsg, block: nat) returns (raised: bool, events: seq<Event>)
      requires Valid()
      modifies our`coopSettle, partner`nonce
      ensures raised <==> CheckWithdrawConfirmation(old(View()), m).Accept? && !OneCoopSettle(old(View()))
      ensures raised ==> View() == old(View()).(partner := old(View()).partner.(nonce := m.nonce))
      ensures !raised ==> Next(View(), events) == ReceiveWithdrawConfirmation(old(View()), m, block)
    {
      var check := CheckWithdrawConfirmation(View(), m);
      if check.Refuse? { return false, [Invalid(check.reason)]; }
      partner.nonce := m.nonce;
      if our.coopSettle.Some? {
        if partner.coopSettle.Some? { return true, []; }
        our.coopSettle := Some(our.coopSettle.value.(confirmationSigned := true));
        var more := EventsForCoopSettle(block);
        return false, [SendProcessed] + more;
      }
      if partner.coopSettle.None? && m.expiration >= block - revealTimeout {
        return false, [SendProcessed, ContractSendWithdraw(m.total, m.expiration)];
      }
      return false, [SendProcessed];
    }

    method HandleWithdrawExpired(m: WithdrawExpiredMsg, block: nat) returns (events: seq<Event>)
      requires Valid()
      modifies partner
      ensures Next(View(), events) == ReceiveWithdrawExpired(old(View()), m, block)
    {
      var check := CheckWithdrawExpired(View(), m, block);
      if check.Refuse? { return [Invalid(check.reason)]; }
      var w := FindWithdraw(partner.withdrawsPending, m.total).value;
      partner.withdrawsPending := DropWithdraw(partner.withdrawsPending, m.total);
      partner.nonce := m.nonce;
      var coop := partner.coopSettle;
      if coop.Some? && coop.value.totalInitiator == w.total && coop.value.expiration == w.expiration {
        partner.coopSettle := None;
      }
      events := [SendProcessed];
    }

    // ---------- life cycle ----------

    method HandleActionClose(block: nat) returns (events: seq<Event>)
      requires Valid()
      modifies `close
      ensures Next(View(), events) == ActionClose(old(View()), block)
    {
      if !PriorToClosed(View()) { return []; }
      close := Some(TxStatus(Some(block), None, None));
      events := [ContractSendClose(partner.balanceProof)];
    }

    method HandleSetRevealTimeout(timeout: nat) returns (events: seq<Event>)
      requires Valid()
      modifies `revealTimeout
      ensures Next(View(), events) == SetRevealTimeout(old(View()), timeout)
    {
      if timeout >= 7 && settleTimeout >= timeout * 2 {
        revealTimeout := timeout;
        return [];
      }
      return [Invalid(InvalidRevealTimeout)];
    }

    method HandleBlock(block: nat) returns (events: seq<Event>)
      requires Valid() && CloseRecorded(View())
      modifies `settle, our
      ensures Next(View(), events) == ChannelTransitions.HandleBlock(old(View()), block)
    {
      events := [];
      var status := GetStatus(View());
      if status == Opened {
        events := our.ExpireWithdraws(block);
      }
      if status == Closed && block > close.value.finished.value + settleTimeout {
        settle := Some(TxStatus(Some(block), None, None));
        events := events + [ContractSendSettle];
      }
    }

    method SetClosed(block: nat)
      modifies `close
      ensures close == Some(Finish(old(close), block))
    {
      if close.None? {
        close := Some(TxStatus(None, Some(block), Some(Success)));
      } else if close.value.finished.None? || close.value.finished.value == 0 {
        close := Some(close.value.(finished := Some(block), result := Some(Success)));
      }
    }

    method SetSettled(block: nat)
      modifies `settle
      ensures settle == Some(Finish(old(settle), block))
    {
      if settle.None? {
        settle := Some(TxStatus(None, Some(block), Some(Success)));
      } else if settle.value.finished.None? || settle.value.finished.value == 0 {
        settle := Some(settle.value.(finished := Some(block), result := Some(Success)));
      }
    }

    method HandleClosed(channel: nat, closer: Address, block: nat) returns (events: seq<Event>)
      requires Valid() && block > 0
      modifies `close, `update
      ensures Next(View(), events) == ChannelClosed(old(View()), channel, closer, block)
    {
      if channel != id.channel || !PriorToClosed(View()) { return []; }
      SetClosed(block);
      var proof := partner.balanceProof;
      if closer != our.address && proof.Some? && update.None? {
        update := Some(TxStatus(Some(block), None, None));
        return [ContractSendUpdate(proof.value, block + settleTimeout)];
      }
      return [];
    }

    method HandleUpdatedTransfer(channel: nat, block: nat)
      requires Valid()
      modifies `update
      ensures Next(View(), []) == UpdatedTransfer(old(View()), channel, block)
    {
      if channel == id.channel {
        update := Some(TxStatus(None, Some(block), Some(Success)));
      }
    }

    /** Returns false when the channel is to be dropped. */
    method HandleSettled(m: SettledMsg) returns (kept: bool, events: seq<Event>)
      requires Valid()
      modifies `settle, our`onchainLocksroot, partner`onchainLocksroot
      ensures Final(if kept then Some(View()) else None, events) == ChannelSettled(old(View()), m)
    {
      if m.id != id.channel { return true, []; }
      SetSettled(m.block);
      var none := NoLocksRoot(keccak);
      if m.ourLocksroot == none && m.partnerLocksroot == none { return false, []; }
      our.onchainLocksroot := m.ourLocksroot;
      partner.onchainLocksroot := m.partnerLocksroot;
      return true, [ContractSendBatchUnlock];
    }

    method HandleBatchUnlock(sender: Address) returns (kept: bool)
      requires Valid()
      modifies our`onchainLocksroot, partner`onchainLocksroot
      ensures Final(if kept then Some(View()) else None, []) == BatchUnlock(old(View()), sender)
    {
      if GetStatus(View()) != Settled { return true; }
      var none := NoLocksRoot(keccak);
      if sender == our.address {
        our.onchainLocksroot := none;
      } else if sender == partner.address {
        partner.onchainLocksroot := none;
      }
      return !(our.onchainLocksroot == none && partner.onchainLocksroot == none);
    }

    method HandleDeposit(participant: Address, balance: nat)
      requires Valid()
      modifies our`contractBalance, partner`contractBalance
      ensures View() == Deposit(old(View()), participant, balance)
    {
      if participant == our.address {
        our.UpdateContractBalance(balance);
      } else if participant == partner.address {
        partner.UpdateContractBalance(balance);
      }
    }

    method HandleWithdraw(participant: Address, total: nat)
      requires Valid()
      modifies our, partner
      ensures View() == ChannelWithdraw(old(View()), participant, total)
    {
      if participant == our.address {
        our.OnchainWithdraw(total);
      } else if participant == partner.address {
        partner.OnchainWithdraw(total);
      }
    }

    // ---------- steps and runs ----------

    /** The object takes exactly the steps of the state machine, and raises exactly where that has none. */
    method Take(s: Step) returns (r: Taken)
      requires Valid() && (s.WasClosed? ==> s.block > 0) && (s.WasSettled? ==> s.settled.block > 0)
      modifies this, our, partner
      ensures r.Raised? <==> !Allowed(old(View()), s)
      ensures !r.Raised? ==> Final(if r.Kept? then Some(View()) else None, r.events) == Apply(old(View()), s)
    {
      if s.DoSendTransfer? || s.DoSendUnlock? || s.DoSendLockExpired? {
        r := TakeSend(s);
      } else if s.GotTransfer? || s.GotRefund? || s.GotUnlock? || s.GotLockExpired? {
        r := TakeEnvelope(s);
      } else if s.DoWithdraw? || s.DoCoopSettle? || s.GotWithdrawRequest? || s.GotWithdrawConfirmation?
                || s.GotWithdrawExpired? {
        r := TakeWithdraw(s);
      } else {
        r := TakeOther(s);
      }
    }

    method TakeSend(s: Step) returns (r: Taken)
      requires Valid() && (s.DoSendTransfer? || s.DoSendUnlock? || s.DoSendLockExpired?)
      modifies our
      ensures r.Raised? <==> !Allowed(old(View()), s)
      ensures !r.Raised? ==> r.Kept? && Final(Some(View()), r.events) == Apply(old(View()), s)
    {
      if !Allowed(View(), s) { return Raised; }
      hide CanSendTransfer, CanSendUnlock, SendTransfer, SendUnlockFor, SendLockExpiredFor;
      var events;
      match s {
        case DoSendTransfer(lock) => events := SendLockedTransfer(lock);
        case DoSendUnlock(h, block) => events := SendUnlock(h, block);
        case DoSendLockExpired(lock) => events := SendLockExpired(lock);
      }
      return Kept(events);
    }

    method TakeEnvelope(s: Step) returns (r: Taken)
      requires Valid() && (s.GotTransfer? || s.GotRefund? || s.GotUnlock? || s.GotLockExpired?)
      modifies partner
      ensures r.Kept? && Final(Some(View()), r.events) == Apply(old(View()), s)
    {
      hide ReceiveTransfer, ReceiveRefund, ReceiveUnlock, ReceiveLockExpired;
      var events;
      match s {
        case GotTransfer(m) => events := HandleLockedTransfer(m);
        case GotRefund(m, original) => events := HandleRefund(m, original);
        case GotUnlock(m) => events := HandleUnlock(m);
        case GotLockExpired(m, block) => events := HandleLockExpired(m, block);
      }
      return Kept(events);
    }

    method TakeWithdraw(s: Step) returns (r: Taken)
      requires Valid()
      requires s.DoWithdraw? || s.DoCoopSettle? || s.GotWithdrawRequest? || s.GotWithdrawConfirmation?
        || s.GotWithdrawExpired?
      modifies our, partner
      ensures r.Raised? <==> !Allowed(old(View()), s)
      ensures !r.Raised? ==> r.Kept? && Final(Some(View()), r.events) == Apply(old(View()), s)
    {
      hide ActionWithdraw, ActionCoopSettle, ReceiveWithdrawRequest, ReceiveWithdrawConfirmation,
        ReceiveWithdrawExpired, RequestMatchesCoopSettle, CheckWithdrawConfirmation,
        SendTransfer, SendUnlockFor, SendLockExpiredFor, ReceiveTransfer, ReceiveRefund, ReceiveUnlock,
        ReceiveLockExpired, RegisterSecret, RegisterOnchainSecret, CanSendTransfer, CanSendUnlock,
        ChannelTransitions.HandleBlock, ActionClose, ChannelClosed, UpdatedTransfer, ChannelSettled, BatchUnlock,
        Deposit, ChannelWithdraw, SetRevealTimeout, CloseRecorded;
      var raised, events := false, [];
      match s {
        case DoWithdraw(total, block) => events := HandleActionWithdraw(total, block);
        case DoCoopSettle(block) => events := HandleActionCoopSettle(block);
        case GotWithdrawRequest(m, block) => raised, events := HandleWithdrawRequest(m, block);
        case GotWithdrawConfirmation(m, block) => raised, events := HandleWithdrawConfirmation(m, block);
        case GotWithdrawExpired(m, block) => events := HandleWithdrawExpired(m, block);
      }
      return if raised then Raised else Kept(events);
    }

    method TakeOther(s: Step) returns (r: Taken)
      requires Valid() && (s.WasClosed? ==> s.block > 0) && (s.WasSettled? ==> s.settled.block > 0)
      requires !(s.DoSendTransfer? || s.DoSendUnlock? || s.DoSendLockExpired? || s.GotTransfer? || s.GotRefund?
        || s.GotUnlock? || s.GotLockExpired?)
      requires !(s.DoWithdraw? || s.DoCoopSettle? || s.GotWithdrawRequest? || s.GotWithdrawConfirmation?
        || s.GotWithdrawExpired?)
      modifies this, our, partner
      ensures r.Raised? <==> !Allowed(old(View()), s)
      ensures !r.Raised? ==> Final(if r.Kept? then Some(View()) else None, r.events) == Apply(old(View()), s)
    {
      if s.NewBlock? && !CloseRecorded(View()) { return Raised; }
      hide RegisterSecret, RegisterOnchainSecret, ChannelTransitions.HandleBlock, ActionClose, ChannelClosed,
        UpdatedTransfer, ChannelSettled, BatchUnlock, Deposit, ChannelWithdraw, SetRevealTimeout, CloseRecorded,
        SendTransfer, SendUnlockFor, SendLockExpiredFor, ReceiveTransfer, ReceiveRefund, ReceiveUnlock,
        ReceiveLockExpired, CanSendTransfer, CanSendUnlock, ActionWithdraw, ActionCoopSettle,
        ReceiveWithdrawRequest, ReceiveWithdrawConfirmation, ReceiveWithdrawExpired, RequestMatchesCoopSettle,
        CheckWithdrawConfirmation;
      var kept, events := true, [];
      match s {
        case SecretRevealed(secret, h) => RegisterOffchainSecret(secret, h);
        case SecretRegistered(secret, h, block) => RegisterOnchain(secret, h, block, true);
        case NewBlock(block) => events := HandleBlock(block);
        case DoClose(block) => events := HandleActionClose(block);
        case WasClosed(channel, closer, block) => events := HandleClosed(channel, closer, block);
        case WasUpdated(channel, block) => HandleUpdatedTransfer(channel, block);
        case WasSettled(m) => kept, events := HandleSettled(m);
        case WasUnlocked(sender) => kept := HandleBatchUnlock(sender);
        case Deposited(participant, amount) => HandleDeposit(participant, amount);
        case Withdrawn(participant, amount) => HandleWithdraw(participant, amount);
        case DoSetRevealTimeout(timeout) => events := HandleSetRevealTimeout(timeout);
      }
      return if kept then Kept(events) else Dropped(events);
    }

    /**
     A run of the object from a fresh channel, disciplined and with fitting withdraws: it follows the
     state machine to its end, its locks are accounted for, both ends are solvent and in range, and
     the sanity check can only fail on a withdraw of nothing.
     */
    method TakeAll(steps: seq<Step>) returns (kept: bool)
      requires Valid() && FreshChannel(View())
      requires IsRun(View(), steps) && Disciplined(View(), steps) && AllWithdrawsFit(View(), steps)
      modifies this, our, partner
      ensures kept <==> After(old(View()), steps).Some?
      ensures kept ==> After(old(View()), steps) == Some(View())
      ensures kept ==> BothAccounted(View()) && BothInRange(View()) && Solvent(View())
      ensures kept ==> (SanityCheck(View()) <==> Cooperating(View()) || Positive(our.withdrawsPending))
    {
      hide Apply, Allowed, FreshChannel, Disciplined, AllWithdrawsFit, BothAccounted, BothInRange, Solvent, SanityCheck,
        Positive;
      ghost var start := View();
      var i := 0;
      kept := true;
      while i < |steps| && kept
        invariant 0 <= i <= |steps|
        invariant kept ==> IsRun(View(), steps[i..]) && After(View(), steps[i..]) == After(start, steps)
        invariant !kept ==> After(start, steps).None?
      {
        assert steps[i..][0] == steps[i] && steps[i..][1..] == steps[i + 1..];
        StepsHaveBlocks(View(), steps[i]);
        var r := Take(steps[i]);
        kept := r.Kept?;
        i := i + 1;
      }
      if kept {
        assert steps[i..] == [];
        FreshAccounted(start);
        FreshSolvent(start);
        RunAccounted(start, steps);
        RunSolvent(start, steps);
        RunSane(start, steps);
      }
    }
  }

  /** `Raised` is a failed assertion. */
  datatype Taken = Kept(events: seq<Event>) | Dropped(events: seq<Event>) | Raised

  lemma StepsHaveBlocks(ch: Channel, s: Step)
    requires Allowed(ch, s)
    ensures (s.WasClosed? ==> s.block > 0) && (s.WasSettled? ==> s.settled.block > 0)
  {
  }
}
