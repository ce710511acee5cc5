/**
 Two nodes at either end of a pair of first-in-first-out queues. Over every run of sends,
 deliveries, secret registrations and deposits, the copy a node keeps of its partner, moved on by
 the envelopes still in the queue, is exactly the partner's own state; hence every envelope is
 accepted when it is delivered.
 */
module Agreement {
  import opened LockCodec
  import opened LockMaps
  import opened ChannelState
  import opened ChannelValidation
  import opened ChannelTransitions
  import opened ChannelRuns
  import opened LockAccounting
  import opened AccountedRuns
  import opened Nonces
  import opened Ledgers

  // ---------- one direction ----------

  function Replay(l: Ledger, queue: seq<Envelope>): Ledger
    decreases queue
  {
    if queue == [] then l else Replay(Post(l, queue[0]), queue[1..])
  }

  /** Each queued envelope fits the ledger the ones before it lead to. */
  predicate Chain(
    keccak: Bytes -> Hash, id: CanonicalId, sender: Address, l: Ledger, queue: seq<Envelope>, funds: int)
    decreases queue
  {
    queue == [] ||
    (Fits(keccak, id, sender, l, queue[0], funds)
     && Chain(keccak, id, sender, Post(l, queue[0]), queue[1..], funds))
  }

  lemma {:induction false} ChainAppend(
    keccak: Bytes -> Hash, id: CanonicalId, sender: Address, l: Ledger, queue: seq<Envelope>, funds: int, m: Envelope)
    requires Chain(keccak, id, sender, l, queue, funds)
    requires Fits(keccak, id, sender, Replay(l, queue), m, funds)
    ensures Chain(keccak, id, sender, l, queue + [m], funds)
    ensures Replay(l, queue + [m]) == Post(Replay(l, queue), m)
    decreases queue
  {
    hide Fits, Post;
    if queue == [] {
      assert queue + [m] == [m];
    } else {
      assert (queue + [m])[1..] == queue[1..] + [m];
      ChainAppend(keccak, id, sender, Post(l, queue[0]), queue[1..], funds, m);
    }
  }

  lemma {:induction false} ChainMoreFunds(
    keccak: Bytes -> Hash, id: CanonicalId, sender: Address, l: Ledger, queue: seq<Envelope>, funds: int, more: int)
    requires Chain(keccak, id, sender, l, queue, funds) && funds <= more
    ensures Chain(keccak, id, sender, l, queue, more)
    decreases queue
  {
    if queue != [] {
      ChainMoreFunds(keccak, id, sender, Post(l, queue[0]), queue[1..], funds, more);
    }
  }

  lemma FitsGrows(keccak: Bytes -> Hash, id: CanonicalId, sender: Address, l: Ledger, m: Envelope, funds: int)
    requires Fits(keccak, id, sender, l, m, funds)
    ensures l.transferred <= Post(l, m).transferred
  {
    hide SumAmounts, Locksroot, RemoveFirst;
  }

  /** What is in flight never takes back what was transferred. */
  lemma {:induction false} ChainGrows(
    keccak: Bytes -> Hash, id: CanonicalId, sender: Address, l: Ledger, queue: seq<Envelope>, funds: int)
    requires Chain(keccak, id, sender, l, queue, funds)
    ensures l.transferred <= Replay(l, queue).transferred
    decreases queue
  {
    hide Fits, Post;
    if queue != [] {
      FitsGrows(keccak, id, sender, l, queue[0], funds);
      ChainGrows(keccak, id, sender, Post(l, queue[0]), queue[1..], funds);
    }
  }

  /** `x` sends to `y` through `queue`. */
  ghost predicate Linked(x: Channel, y: Channel, queue: seq<Envelope>)
  {
    && x.keccak == y.keccak && x.id == y.id && x.our.address == y.partner.address
    && x.our.contractBalance <= y.partner.contractBalance
    && TotalWithdraw(y.partner) <= TotalWithdraw(x.our)
    && Replay(LedgerOf(y.partner), queue) == LedgerOf(x.our)
    && Chain(y.keccak, y.id, y.partner.address, LedgerOf(y.partner), queue, ReceiverFunds(y))
  }

  /** The sender never believes to have more to spend than the receiver will grant it. */
  lemma FundsAgree(x: Channel, y: Channel, queue: seq<Envelope>, back: seq<Envelope>)
    requires Linked(x, y, queue) && Linked(y, x, back)
    ensures SenderFunds(x) <= ReceiverFunds(y)
  {
    hide Replay, Chain, AllLocks, TotalWithdraw;
    ChainGrows(x.keccak, x.id, x.partner.address, LedgerOf(x.partner), back, ReceiverFunds(x));
  }

  /** What every move of `x` keeps of its own end, apart from the ledger. */
  ghost predicate SameParty(x: Channel, x': Channel)
  {
    && x'.keccak == x.keccak && x'.id == x.id && x'.our.address == x.our.address
    && TotalWithdraw(x'.our) == TotalWithdraw(x.our)
    && x'.partner.address == x.partner.address && TotalWithdraw(x'.partner) == TotalWithdraw(x.partner)
  }

  lemma SendLinks(x: Channel, y: Channel, queue: seq<Envelope>, back: seq<Envelope>, x': Channel, m: Envelope)
    requires Linked(x, y, queue) && Linked(y, x, back)
    requires SameParty(x, x') && x'.partner == x.partner && x'.our.contractBalance == x.our.contractBalance
    requires Fits(x.keccak, x.id, x.our.address, LedgerOf(x.our), m, SenderFunds(x))
    requires LedgerOf(x'.our) == Post(LedgerOf(x.our), m)
    ensures Linked(x', y, queue + [m]) && Linked(y, x', back)
  {
    FundsAgree(x, y, queue, back);
    FitsGrows(x.keccak, x.id, x.our.address, LedgerOf(x.our), m, SenderFunds(x));
    assert Transferred(x.our) <= Transferred(x'.our);
    assert Fits(x.keccak, x.id, x.our.address, LedgerOf(x.our), m, ReceiverFunds(y));
    ChainMoreFunds(x.keccak, x.id, x.partner.address, LedgerOf(x.partner), back, ReceiverFunds(x), ReceiverFunds(x'));
    hide Fits, Post, LedgerOf, Replay, Chain, TotalWithdraw, Transferred;
    ChainAppend(y.keccak, y.id, y.partner.address, LedgerOf(y.partner), queue, ReceiverFunds(y), m);
  }

  lemma DeliveryLinks(x: Channel, y: Channel, queue: seq<Envelope>, back: seq<Envelope>, x': Channel)
    requires Linked(x, y, queue) && Linked(y, x, back) && back != []
    requires Copied(x, back[0], x')
    ensures Linked(x', y, queue) && Linked(y, x', back[1..])
  {
    hide Fits, Post, LedgerOf, TotalWithdraw, Transferred;
  }

  /** A move that leaves both ledgers alone, and takes no funds from either side's view. */
  lemma QuietLinks(x: Channel, y: Channel, queue: seq<Envelope>, back: seq<Envelope>, x': Channel)
    requires Linked(x, y, queue) && Linked(y, x, back) && SameParty(x, x')
    requires LedgerOf(x'.our) == LedgerOf(x.our) && LedgerOf(x'.partner) == LedgerOf(x.partner)
    requires x'.our.contractBalance <= y.partner.contractBalance
    requires x.partner.contractBalance <= x'.partner.contractBalance
    ensures Linked(x', y, queue) && Linked(y, x', back)
  {
    ChainMoreFunds(x.keccak, x.id, x.partner.address, LedgerOf(x.partner), back, ReceiverFunds(x), ReceiverFunds(x'));
    hide Replay, Chain, TotalWithdraw;
  }

  // ---------- the system ----------

  datatype System = System(a: Channel, b: Channel, ab: seq<Envelope>, ba: seq<Envelope>)

  function Flip(s: System): System { System(s.b, s.a, s.ba, s.ab) }

  ghost predicate Agreed(s: System)
  {
    Healthy(s.a) && Healthy(s.b) && Linked(s.a, s.b, s.ab) && Linked(s.b, s.a, s.ba)
  }

  datatype Move =
    | Local(step: Step)
    | Deliver(details: Transfer, block: nat)

  /**
   What the node at the `a` end may do. A transfer is sent only on a usable channel and for a fresh
   secrethash, a lock registered on-chain is never expired, and a node does not count on a deposit
   of its own before its partner has seen it.
   */
  predicate MayMove(s: System, m: Move)
  {
    match m
    case Deliver(_, _) => s.ba != []
    case Local(step) =>
      Allowed(s.a, step) &&
      match step
      case DoSendTransfer(lock) =>
        UsableForNewTransfer(s.a, lock.amount, None) == Usable && !IsLockPending(s.a.our, lock.secrethash)
      case DoSendLockExpired(lock) => Encode(lock) in s.a.our.pendingLocks ==> lock.secrethash !in s.a.our.onchain
      case Deposited(participant, amount) => participant == s.a.our.address ==> amount <= s.b.partner.contractBalance
      case DoSendUnlock(_, _) => true
      case SecretRevealed(_, _) => true
      case SecretRegistered(_, _, _) => true
      case _ => false
  }

  /** An envelope that is not accepted is not confirmed, and so stays at the head of the queue. */
  function DoMove(s: System, m: Move): System
    requires MayMove(s, m)
  {
    match m
    case Local(step) =>
      var r := Apply(s.a, step);
      s.(a := r.channel.value, ab := s.ab + Sealed(r.events, s.a.our.address))
    case Deliver(details, block) =>
      var step := Arrival(s.ba[0], details, block);
      if Accepted(s.a, step) then s.(a := Apply(s.a, step).channel.value, ba := s.ba[1..]) else s
  }

  lemma SealedOne(event: Event, sender: Address)
    ensures Sealed([event], sender) == match event
      case SendLockedTransfer(lock, proof) => [Locked(lock, proof.(signer := Some(sender)))]
      case SendUnlock(h, proof) => [Unlocked(h, proof.(signer := Some(sender)))]
      case SendLockExpired(h, proof) => [Expired(h, proof.(signer := Some(sender)))]
      case _ => []
  {
    assert [event][1..] == [];
  }

  predicate Sends(s: System, step: Step)
  {
    step.DoSendTransfer? || step.DoSendUnlock?
    || (step.DoSendLockExpired? && Encode(step.lock) in s.a.our.pendingLocks)
  }

  /** A send adds one fitting envelope and moves the sender's own ledger with it. */
  lemma SendFits(s: System, step: Step) returns (m: Envelope)
    requires Agreed(s) && MayMove(s, Local(step)) && Sends(s, step)
    ensures Apply(s.a, step).channel.Some?
    ensures Sealed(Apply(s.a, step).events, s.a.our.address) == [m]
    ensures Fits(s.a.keccak, s.a.id, s.a.our.address, LedgerOf(s.a.our), m, SenderFunds(s.a))
    ensures LedgerOf(Apply(s.a, step).channel.value.our) == Post(LedgerOf(s.a.our), m)
  {
    hide Linked, Fits, LedgerOf, Post, Healthy, SenderFunds, Distributable, CanSendUnlock, IsLockPending, Encode,
      AmountLocked, RemoveFirst, GetLock, CurrentLocked, Transferred, Without, Sealed;
    SealedOne(Apply(s.a, step).events[0], s.a.our.address);
    if step.DoSendTransfer? {
      TransferFits(s.a, step.lock);
      m := Locked(step.lock, Apply(s.a, step).events[0].proof.(signer := Some(s.a.our.address)));
    } else if step.DoSendUnlock? {
      UnlockFits(s.a, step.secrethash, step.block);
      m := Unlocked(step.secrethash, Apply(s.a, step).events[0].proof.(signer := Some(s.a.our.address)));
    } else {
      ExpiredFits(s.a, step.lock);
      m := Expired(step.lock.secrethash, Apply(s.a, step).events[0].proof.(signer := Some(s.a.our.address)));
    }
  }

  /** The parts of the channel a local step leaves alone. */
  lemma LocalFrame(s: System, step: Step)
    requires MayMove(s, Local(step))
    ensures Apply(s.a, step).channel.Some? && SameParty(s.a, Apply(s.a, step).channel.value)
    ensures var a' := Apply(s.a, step).channel.value;
      GetStatus(a') == GetStatus(s.a) && (Sends(s, step) ==> a'.partner == s.a.partner)
    ensures var a' := Apply(s.a, step).channel.value;
      !step.Deposited? ==>
        a'.our.contractBalance == s.a.our.contractBalance && a'.partner.contractBalance == s.a.partner.contractBalance
  {
    hide SameParty;
    match step
    case SecretRevealed(secret, h) => RevealFrame(s.a, secret, h);
    case SecretRegistered(secret, h, block) => RegisterFrame(s.a, secret, h, block);
    case Deposited(participant, amount) => DepositFrame(s.a, participant, amount);
    case _ => SendFrame(s.a, step);
  }

  lemma SameTotals(x: Channel, x': Channel)
    requires x'.keccak == x.keccak && x'.id == x.id
    requires x'.our.address == x.our.address && x'.partner.address == x.partner.address
    requires x'.our.withdrawsPending == x.our.withdrawsPending && x'.our.onchainTotalWithdraw == x.our.onchainTotalWithdraw
    requires x'.partner.withdrawsPending == x.partner.withdrawsPending
    requires x'.partner.onchainTotalWithdraw == x.partner.onchainTotalWithdraw
    ensures SameParty(x, x')
  {
    hide MaxTotal;
  }

  lemma RevealFrame(ch: Channel, secret: Bytes, h: Hash)
    ensures SameParty(ch, RegisterSecret(ch, secret, h))
  {
    hide SameParty;
    SameTotals(ch, RegisterSecret(ch, secret, h));
  }

  lemma RegisterFrame(ch: Channel, secret: Bytes, h: Hash, block: nat)
    ensures SameParty(ch, RegisterOnchainSecret(ch, secret, h, block, true))
  {
    hide SameParty, Without;
    SameTotals(ch, RegisterOnchainSecret(ch, secret, h, block, true));
  }

  lemma DepositFrame(ch: Channel, participant: Address, amount: nat)
    ensures SameParty(ch, Deposit(ch, participant, amount))
  {
    hide SameParty;
    SameTotals(ch, Deposit(ch, participant, amount));
  }

  lemma SendFrame(ch: Channel, step: Step)
    requires step.DoSendTransfer? || step.DoSendUnlock? || step.DoSendLockExpired?
    requires Allowed(ch, step)
    ensures Apply(ch, step).channel.Some?
    ensures SameParty(ch, Apply(ch, step).channel.value)
    ensures Apply(ch, step).channel.value.partner == ch.partner
  {
    hide SameParty, Encode, AmountLocked, RemoveFirst, GetLock, Transferred, Without, Locksroot, Distributable,
      IsLockPending, IsLockExpired, GetStatus;
    SameTotals(ch, Apply(ch, step).channel.value);
  }

  ghost predicate SameLedgers(ch: Channel, ch': Channel)
  {
    LedgerOf(ch'.our) == LedgerOf(ch.our) && LedgerOf(ch'.partner) == LedgerOf(ch.partner)
  }

  lemma QuietLedgers(s: System, step: Step)
    requires Agreed(s) && MayMove(s, Local(step)) && !Sends(s, step)
    ensures Apply(s.a, step).channel.Some? && Apply(s.a, step).events == []
    ensures SameLedgers(s.a, Apply(s.a, step).channel.value)
  {
    hide Linked, Encode, UsableForNewTransfer, RegisterSecretEnd, RegisterOnchainEnd, SameLedgers, Accounted,
      BothInRange, GetStatus;
    match step
    case SecretRevealed(secret, h) => RevealLedgers(s.a, secret, h);
    case SecretRegistered(secret, h, block) => RegisterLedgers(s.a, secret, h, block);
    case Deposited(participant, amount) => DepositLedgers(s.a, participant, amount);
    case _ => UnchangedLedgers(s.a);
  }

  lemma UnchangedLedgers(ch: Channel)
    ensures SameLedgers(ch, ch)
  {
  }

  lemma RevealLedgers(ch: Channel, secret: Bytes, h: Hash)
    requires BothAccounted(ch)
    ensures SameLedgers(ch, RegisterSecret(ch, secret, h))
  {
    hide AmountLocked, Indexed, ProofMatches, AllLocks, RegisterSecretEnd;
    AllLocksRegister(ch.our, secret, h);
    AllLocksRegister(ch.partner, secret, h);
    RegisterKeepsLedger(ch.our, secret, h, 0);
    RegisterKeepsLedger(ch.partner, secret, h, 0);
  }

  lemma RegisterLedgers(ch: Channel, secret: Bytes, h: Hash, block: nat)
    requires BothAccounted(ch)
    ensures SameLedgers(ch, RegisterOnchainSecret(ch, secret, h, block, true))
  {
    hide AmountLocked, Indexed, ProofMatches, AllLocks, RegisterOnchainEnd;
    AllLocksRegisterOnchain(ch.our, secret, h, block);
    AllLocksRegisterOnchain(ch.partner, secret, h, block);
    RegisterKeepsLedger(ch.our, secret, h, block);
    RegisterKeepsLedger(ch.partner, secret, h, block);
  }

  lemma DepositLedgers(ch: Channel, participant: Address, amount: nat)
    ensures SameLedgers(ch, Deposit(ch, participant, amount))
  {
    hide AllLocks;
    var ch' := Deposit(ch, participant, amount);
    SameLocksAccounted(ch.keccak, ch.our, ch'.our);
    SameLocksAccounted(ch.keccak, ch.partner, ch'.partner);
  }

  lemma RegisterKeepsLedger(e: End, secret: Bytes, h: Hash, block: nat)
    ensures var e1 := RegisterSecretEnd(e, secret, h); var e2 := RegisterOnchainEnd(e, secret, h, block, true);
      e1.nonce == e2.nonce == e.nonce && e1.pendingLocks == e2.pendingLocks == e.pendingLocks
      && e1.balanceProof == e2.balanceProof == e.balanceProof
  {
  }

  lemma DepositView(s: System, step: Step)
    requires MayMove(s, Local(step)) && Linked(s.a, s.b, s.ab) && !Sends(s, step)
    ensures Apply(s.a, step).channel.Some?
    ensures Apply(s.a, step).channel.value.our.contractBalance <= s.b.partner.contractBalance
    ensures s.a.partner.contractBalance <= Apply(s.a, step).channel.value.partner.contractBalance
  {
    hide Replay, Chain, LedgerOf, TotalWithdraw, Encode, UsableForNewTransfer, Without;
  }

  lemma LocalAgreed(s: System, step: Step)
    requires Agreed(s) && MayMove(s, Local(step))
    ensures Agreed(DoMove(s, Local(step)))
  {
    LocalFrame(s, step);
    LocalHealthy(s.a, step);
    var r := Apply(s.a, step);
    if Sends(s, step) {
      var m := SendFits(s, step);
      SendLinks(s.a, s.b, s.ab, s.ba, r.channel.value, m);
    } else {
      QuietLedgers(s, step);
      DepositView(s, step);
      hide Linked, Healthy, Apply, Sends, LedgerOf;
      assert r.events == [];
      QuietLinks(s.a, s.b, s.ab, s.ba, r.channel.value);
      assert s.ab + Sealed([], s.a.our.address) == s.ab;
    }
  }

  lemma LocalHealthy(ch: Channel, step: Step)
    requires Healthy(ch) && Allowed(ch, step) && LockDiscipline(ch, step)
    requires Apply(ch, step).channel.Some? && GetStatus(Apply(ch, step).channel.value) == Opened
    ensures Healthy(Apply(ch, step).channel.value)
  {
    hide Apply, Allowed, LockDiscipline, GetStatus, BothAccounted, BothInRange;
    StepAccounted(ch, step);
    StepInRange(ch, step);
  }

  lemma CopiedStatus(ch: Channel, m: Envelope, ch': Channel)
    requires Copied(ch, m, ch')
    ensures GetStatus(ch') == GetStatus(ch)
  {
    hide LedgerOf, Post, TotalWithdraw;
  }

  lemma HeadFits(x: Channel, y: Channel, queue: seq<Envelope>)
    requires Linked(x, y, queue) && queue != []
    ensures Fits(y.keccak, y.id, y.partner.address, LedgerOf(y.partner), queue[0], ReceiverFunds(y))
  {
    hide Fits, LedgerOf, TotalWithdraw, ReceiverFunds, Replay, Post;
  }

  lemma DeliverAgreed(s: System, details: Transfer, block: nat)
    requires Agreed(s) && s.ba != []
    ensures Agreed(DoMove(s, Deliver(details, block)))
  {
    hide Linked, Copied, BothAccounted, BothInRange, GetStatus, Waits, Accepted, Apply, LockDiscipline, Fits;
    var step := Arrival(s.ba[0], details, block);
    HeadFits(s.b, s.a, s.ba);
    ArrivalAccepted(s.a, s.ba[0], details, block);
    if Accepted(s.a, step) {
      CopiedStatus(s.a, s.ba[0], Apply(s.a, step).channel.value);
      LocalHealthy(s.a, step);
      DeliveryLinks(s.a, s.b, s.ab, s.ba, Apply(s.a, step).channel.value);
    }
  }

  // ---------- runs ----------

  /** A move of one of the two nodes: of `a`, or of `b` when `flipped`. */
  datatype Turn = Turn(flipped: bool, move: Move)

  function Side(s: System, t: Turn): System { if t.flipped then Flip(s) else s }

  function Take(s: System, t: Turn): System
    requires MayMove(Side(s, t), t.move)
  {
    var r := DoMove(Side(s, t), t.move);
    if t.flipped then Flip(r) else r
  }

  predicate Legal(s: System, turns: seq<Turn>)
    decreases turns
  {
    turns == [] || (MayMove(Side(s, turns[0]), turns[0].move) && Legal(Take(s, turns[0]), turns[1..]))
  }

  function Play(s: System, turns: seq<Turn>): System
    requires Legal(s, turns)
    decreases turns
  {
    if turns == [] then s else Play(Take(s, turns[0]), turns[1..])
  }

  lemma TurnAgreed(s: System, t: Turn)
    requires Agreed(s) && MayMove(Side(s, t), t.move)
    ensures Agreed(Take(s, t))
  {
    hide MayMove, DoMove, Linked, Healthy;
    match t.move
    case Local(step) => LocalAgreed(Side(s, t), step);
    case Deliver(details, block) => MoveNeedsQueue(Side(s, t), t.move); DeliverAgreed(Side(s, t), details, block);
  }

  lemma MoveNeedsQueue(s: System, m: Move)
    requires m.Deliver? && MayMove(s, m)
    ensures s.ba != []
  {
  }

  /** The main theorem: agreement over every run. */
  lemma {:induction false} RunAgreed(s: System, turns: seq<Turn>)
    requires Agreed(s) && Legal(s, turns)
    ensures Agreed(Play(s, turns))
    decreases turns
  {
    hide Agreed, MayMove, Take, Side;
    if turns != [] {
      TurnAgreed(s, turns[0]);
      RunAgreed(Take(s, turns[0]), turns[1..]);
    }
  }

  /** Two nodes that have just opened a channel agree. */
  lemma FreshAgreed(a: Channel, b: Channel)
    requires FreshChannel(a) && FreshChannel(b) && a.keccak == b.keccak && a.id == b.id
    requires a.our.address == b.partner.address && b.our.address == a.partner.address
    requires a.our.contractBalance <= b.partner.contractBalance && b.our.contractBalance <= a.partner.contractBalance
    ensures Agreed(System(a, b, [], []))
  {
    FreshAccounted(a);
    FreshAccounted(b);
    assert AllLocks(a.our) == AllLocks(b.partner) == AllLocks(b.our) == AllLocks(a.partner) == map[];
    hide BothAccounted, BothInRange;
  }

  /**
   What agreement is for: in any state of any run, the next envelope is accepted when it is
   delivered. Only a LockExpired can be turned down, and exactly while its receiver has not passed
   the threshold or knows the secret to be registered on-chain.
   */
  lemma NextIsAccepted(s: System, turns: seq<Turn>, flipped: bool, details: Transfer, block: nat)
    requires Agreed(s) && Legal(s, turns)
    ensures var t := if flipped then Flip(Play(s, turns)) else Play(s, turns);
      t.ba != [] ==> (Accepted(t.a, Arrival(t.ba[0], details, block)) <==> !Waits(t.a, t.ba[0], block))
  {
    hide Linked, Healthy, Waits, Accepted, Legal, Play, Fits;
    RunAgreed(s, turns);
    var t := if flipped then Flip(Play(s, turns)) else Play(s, turns);
    if t.ba != [] {
      HeadFits(t.b, t.a, t.ba);
      ArrivalAccepted(t.a, t.ba[0], details, block);
    }
  }

  /** Once a queue is empty the receiver's copy is the sender's state, down to the amounts and root. */
  lemma EmptyQueueMirrors(s: System)
    requires Agreed(s) && s.ab == []
    ensures LedgerOf(s.b.partner) == LedgerOf(s.a.our)
    ensures AmountLocked(s.b.partner) == AmountLocked(s.a.our)
    ensures CurrentLocksroot(s.b.keccak, s.b.partner) == CurrentLocksroot(s.a.keccak, s.a.our)
  {
    AmountIsSum(s.a.our);
    AmountIsSum(s.b.partner);
    CurrentIsAmount(s.a.keccak, s.a.our);
    CurrentIsAmount(s.b.keccak, s.b.partner);
    hide AmountLocked, Indexed, AllLocks, SumAmounts;
  }
}
