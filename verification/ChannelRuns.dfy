/**
 The channel as a state machine: one step per state change or local operation, and runs of
 any length.
 */
module ChannelRuns {
  import opened LockCodec
  import opened ChannelState
  import opened ChannelValidation
  import opened ChannelTransitions

  datatype Step =
    | DoSendTransfer(lock: Lock)
    | DoSendUnlock(secrethash: Hash, block: nat)
    | DoSendLockExpired(lock: Lock)
    | GotTransfer(transfer: Transfer)
    | GotRefund(transfer: Transfer, original: Transfer)
    | GotUnlock(unlock: UnlockMsg)
    | GotLockExpired(expired: LockExpiredMsg, block: nat)
    | SecretRevealed(secret: Bytes, secrethash: Hash)
    | SecretRegistered(secret: Bytes, secrethash: Hash, block: nat)
    | DoWithdraw(total: int, block: nat)
    | DoCoopSettle(block: nat)
    | GotWithdrawRequest(withdraw: WithdrawMsg, block: nat)
    | GotWithdrawConfirmation(withdraw: WithdrawMsg, block: nat)
    | GotWithdrawExpired(withdrawExpired: WithdrawExpiredMsg, block: nat)
    | NewBlock(block: nat)
    | DoClose(block: nat)
    | WasClosed(id: nat, closer: Address, block: nat)
    | WasUpdated(id: nat, block: nat)
    | WasSettled(settled: SettledMsg)
    | WasUnlocked(sender: Address)
    | Deposited(participant: Address, amount: nat)
    | Withdrawn(participant: Address, amount: nat)
    | DoSetRevealTimeout(timeout: nat)

  /** The assertions the source makes about its callers for each step. */
  predicate Allowed(ch: Channel, s: Step)
  {
    match s
    case DoSendTransfer(lock) => CanSendTransfer(ch, lock)
    case DoSendUnlock(h, block) => CanSendUnlock(ch, h, block)
    case DoSendLockExpired(_) => CanSendLockExpired(ch)
    case GotWithdrawRequest(m, _) => RequestMatchesCoopSettle(ch, m)
    case GotWithdrawConfirmation(m, _) => CheckWithdrawConfirmation(ch, m).Accept? ==> OneCoopSettle(ch)
    case NewBlock(_) => CloseRecorded(ch)
    case WasClosed(_, _, block) => block > 0
    case WasSettled(m) => m.block > 0
    case _ => true
  }

  function Lift(n: Next): Final { Final(Some(n.channel), n.events) }

  function Apply(ch: Channel, s: Step): Final
    requires Allowed(ch, s)
  {
    match s
    case DoSendTransfer(lock) => Lift(SendTransfer(ch, lock))
    case DoSendUnlock(h, block) => Lift(SendUnlockFor(ch, h, block))
    case DoSendLockExpired(lock) => Lift(SendLockExpiredFor(ch, lock))
    case GotTransfer(m) => Lift(ReceiveTransfer(ch, m))
    case GotRefund(m, original) => Lift(ReceiveRefund(ch, m, original))
    case GotUnlock(m) => Lift(ReceiveUnlock(ch, m))
    case GotLockExpired(m, block) => Lift(ReceiveLockExpired(ch, m, block))
    case SecretRevealed(secret, h) => Final(Some(RegisterSecret(ch, secret, h)), [])
    case SecretRegistered(secret, h, block) => Final(Some(RegisterOnchainSecret(ch, secret, h, block, true)), [])
    case DoWithdraw(total, block) => Lift(ActionWithdraw(ch, total, block))
    case DoCoopSettle(block) => Lift(ActionCoopSettle(ch, block))
    case GotWithdrawRequest(m, block) => Lift(ReceiveWithdrawRequest(ch, m, block))
    case GotWithdrawConfirmation(m, block) => Lift(ReceiveWithdrawConfirmation(ch, m, block))
    case GotWithdrawExpired(m, block) => Lift(ReceiveWithdrawExpired(ch, m, block))
    case NewBlock(block) => Lift(HandleBlock(ch, block))
    case DoClose(block) => Lift(ActionClose(ch, block))
    case WasClosed(id, closer, block) => Lift(ChannelClosed(ch, id, closer, block))
    case WasUpdated(id, block) => Lift(UpdatedTransfer(ch, id, block))
    case WasSettled(m) => ChannelSettled(ch, m)
    case WasUnlocked(sender) => BatchUnlock(ch, sender)
    case Deposited(participant, amount) => Final(Some(Deposit(ch, participant, amount)), [])
    case Withdrawn(participant, amount) => Final(Some(ChannelWithdraw(ch, participant, amount)), [])
    case DoSetRevealTimeout(timeout) => Lift(SetRevealTimeout(ch, timeout))
  }

  /** A run of steps, every one allowed where it is taken; nothing follows once the channel is gone. */
  predicate IsRun(ch: Channel, steps: seq<Step>)
    decreases steps
  {
    steps == [] ||
    (Allowed(ch, steps[0])
     && var next := Apply(ch, steps[0]).channel;
        if next.None? then |steps| == 1 else IsRun(next.value, steps[1..]))
  }

  function After(ch: Channel, steps: seq<Step>): Option<Channel>
    requires IsRun(ch, steps)
    decreases steps
  {
    if steps == [] then Some(ch)
    else
      var next := Apply(ch, steps[0]).channel;
      if next.None? then None else After(next.value, steps[1..])
  }

  /** Everything the run sends, in order. */
  function Emitted(ch: Channel, steps: seq<Step>): seq<Event>
    requires IsRun(ch, steps)
    decreases steps
  {
    if steps == [] then []
    else
      var r := Apply(ch, steps[0]);
      r.events + (if r.channel.None? then [] else Emitted(r.channel.value, steps[1..]))
  }

  /** Putting a step in front of a run. */
  lemma RunCons(ch: Channel, s: Step, steps: seq<Step>)
    requires Allowed(ch, s) && Apply(ch, s).channel.Some? && IsRun(Apply(ch, s).channel.value, steps)
    ensures IsRun(ch, [s] + steps)
    ensures After(ch, [s] + steps) == After(Apply(ch, s).channel.value, steps)
  {
    hide Apply, Allowed;
    assert ([s] + steps)[1..] == steps;
  }

  lemma RunOfTwo(ch: Channel, a: Step, b: Step)
    requires Allowed(ch, a) && Apply(ch, a).channel.Some?
    requires Allowed(Apply(ch, a).channel.value, b) && Apply(Apply(ch, a).channel.value, b).channel.Some?
    ensures IsRun(ch, [a, b]) && After(ch, [a, b]) == Apply(Apply(ch, a).channel.value, b).channel
  {
    hide Apply, Allowed;
    var ch1 := Apply(ch, a).channel.value;
    RunCons(ch1, b, []);
    assert [b] + [] == [b] && [a] + [b] == [a, b];
    RunCons(ch, a, [b]);
  }

  /** A channel end as it is when the channel is opened. */
  predicate FreshEnd(keccak: Bytes -> Hash, e: End)
  {
    e.onchainTotalWithdraw == 0 && e.withdrawsPending == [] && e.withdrawsExpired == []
    && e.coopSettle.None? && e.locked == map[] && e.unlocked == map[] && e.onchain == map[]
    && e.balanceProof.None? && e.pendingLocks == [] && e.nonce == 0
    && e.onchainLocksroot == NoLocksRoot(keccak)
  }

  predicate FreshChannel(ch: Channel)
  {
    FreshEnd(ch.keccak, ch.our) && FreshEnd(ch.keccak, ch.partner)
    && ch.our.address != ch.partner.address
    && ch.close.None? && ch.settle.None? && ch.update.None?
  }

  /** Expiring withdraws only touches the withdraws, the cooperative settlement and the nonce. */
  lemma {:induction false} ExpireWithdrawsFrame(e: End, ws: seq<Withdraw>, block: nat)
    ensures var r := ExpireWithdraws(e, ws, block).end;
      e == r.(nonce := e.nonce, coopSettle := e.coopSettle,
              withdrawsExpired := e.withdrawsExpired, withdrawsPending := e.withdrawsPending)
    ensures ExpireWithdraws(e, ws, block).end.nonce == e.nonce + |ExpireWithdraws(e, ws, block).events|
    decreases ws
  {
    if ws != [] && WithdrawIsExpired(ws[0], block) {
      ExpireWithdrawsFrame(ExpireOne(e, ws[0]), ws[1..], block);
    }
  }
}
