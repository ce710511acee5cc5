/**
 What two nodes have to agree on about one direction of a channel: the nonce, the transferred
 amount, the order of the pending locks and the locks themselves. A sender's envelopes move its own
 ledger exactly as they move the receiver's copy of it.
 */
module Ledgers {
  import opened LockCodec
  import opened LockMaps
  import opened ChannelState
  import opened ChannelValidation
  import opened ChannelTransitions
  import opened ChannelRuns
  import opened LockAccounting
  import opened AccountedRuns
  import opened Nonces

  datatype Ledger = Ledger(nonce: nat, transferred: int, pending: seq<Bytes>, locks: LockMap)

  function LedgerOf(e: End): Ledger
  {
    Ledger(e.nonce, Transferred(e), e.pendingLocks, AllLocks(e))
  }

  /** A signed message on its way from one node to the other. */
  datatype Envelope =
    | Locked(lock: Lock, proof: BalanceProof)
    | Unlocked(secrethash: Hash, proof: BalanceProof)
    | Expired(secrethash: Hash, proof: BalanceProof)

  /** The envelopes among the events of a step, signed by `sender`. */
  function Sealed(events: seq<Event>, sender: Address): seq<Envelope>
  {
    if events == [] then []
    else
      var rest := Sealed(events[1..], sender);
      match events[0]
      case SendLockedTransfer(lock, proof) => [Locked(lock, proof.(signer := Some(sender)))] + rest
      case SendUnlock(h, proof) => [Unlocked(h, proof.(signer := Some(sender)))] + rest
      case SendLockExpired(h, proof) => [Expired(h, proof.(signer := Some(sender)))] + rest
      case _ => rest
  }

  /** The step an arriving envelope causes; `details` supplies the fields the channel ignores. */
  function Arrival(m: Envelope, details: Transfer, block: nat): Step
  {
    match m
    case Locked(lock, proof) => GotTransfer(details.(lock := lock, proof := proof))
    case Unlocked(h, proof) => GotUnlock(UnlockMsg(h, proof))
    case Expired(h, proof) => GotLockExpired(LockExpiredMsg(h, proof), block)
  }

  predicate Holds(l: Ledger, h: Hash)
  {
    h in l.locks && Encode(l.locks[h]) in l.pending
  }

  function Post(l: Ledger, m: Envelope): Ledger
  {
    if m.Locked? then
      Ledger(m.proof.nonce, m.proof.transferred, l.pending + [Encode(m.lock)],
             l.locks[m.lock.secrethash := m.lock])
    else if Holds(l, m.secrethash) then
      Ledger(m.proof.nonce, m.proof.transferred, RemoveFirst(l.pending, Encode(l.locks[m.secrethash])),
             Without(l.locks, m.secrethash))
    else l
  }

  /**
   `m` is a valid next envelope of `sender` for a ledger `l`, when `funds` is what the sender has
   deposited and received less what it has withdrawn.
   */
  predicate Fits(keccak: Bytes -> Hash, id: CanonicalId, sender: Address, l: Ledger, m: Envelope, funds: int)
  {
    && m.proof.id == id
    && m.proof.signer == Some(sender)
    && m.proof.nonce == l.nonce + 1
    && m.proof.locksroot == Locksroot(keccak, Post(l, m).pending)
    && m.proof.lockedAmount == SumAmounts(Post(l, m).locks)
    && m.proof.transferred + m.proof.lockedAmount <= UINT256_MAX
    && match m
       case Locked(lock, proof) =>
         lock.secrethash !in l.locks
         && |l.pending| < MAXIMUM_PENDING_TRANSFERS
         && proof.transferred == l.transferred
         && proof.transferred + proof.lockedAmount <= funds
       case Unlocked(h, proof) => Holds(l, h) && proof.transferred == l.transferred + l.locks[h].amount
       case Expired(h, proof) => Holds(l, h) && proof.transferred == l.transferred
  }

  function SenderFunds(ch: Channel): int
  {
    ch.our.contractBalance - TotalWithdraw(ch.our) + Transferred(ch.partner)
  }

  function ReceiverFunds(ch: Channel): int
  {
    ch.partner.contractBalance - TotalWithdraw(ch.partner) + Transferred(ch.our)
  }

  ghost predicate Healthy(ch: Channel)
  {
    BothAccounted(ch) && BothInRange(ch) && GetStatus(ch) == Opened
  }

  /** Taking a pending lock out of an end moves its ledger as the envelope says. */
  lemma RemovalMoves(keccak: Bytes -> Hash, e: End, m: Envelope, proof: BalanceProof)
    requires Accounted(keccak, e) && !m.Locked? && IsLockPending(e, m.secrethash)
    requires proof.nonce == m.proof.nonce && proof.transferred == m.proof.transferred
    ensures var lock := GetLock(e, m.secrethash).value;
      lock.secrethash == m.secrethash && Encode(lock) in e.pendingLocks
      && Holds(LedgerOf(e), m.secrethash) && LedgerOf(e).locks[m.secrethash] == lock
      && Post(LedgerOf(e), m).pending == RemoveFirst(e.pendingLocks, Encode(lock))
      && SumAmounts(Post(LedgerOf(e), m).locks) == AmountLocked(e) - lock.amount
    ensures var e1 := WithProof(e, proof, Post(LedgerOf(e), m).pending);
      LedgerOf(DelLock(e1, m.secrethash)) == Post(LedgerOf(e), m)
      && (m.secrethash !in e.onchain ==> LedgerOf(DelUnclaimedLock(e1, m.secrethash)) == Post(LedgerOf(e), m))
  {
    var h := m.secrethash;
    hide Indexed, ProofMatches;
    PendingEncoding(keccak, e, h);
    AmountIsSum(e);
    SumRemove(AllLocks(e), h);
    var pending := RemoveFirst(e.pendingLocks, Encode(AllLocks(e)[h]));
    WithProofKeepsLocks(e, proof, pending);
    AllLocksDel(WithProof(e, proof, pending), h);
    if h !in e.onchain {
      AllLocksDelUnclaimed(WithProof(e, proof, pending), h);
    }
    hide AllLocks, GetLock, RemoveFirst, SumAmounts;
  }

  // ---------- sending ----------

  /** The usability check is enough for the assertions of the send. */
  lemma UsableCanSend(ch: Channel, lock: Lock)
    requires Healthy(ch) && !IsLockPending(ch.our, lock.secrethash)
    requires UsableForNewTransfer(ch, lock.amount, None) == Usable && NextNonce(ch.our) <= UINT64_MAX
    ensures CanSendTransfer(ch, lock)
  {
    assert lock.secrethash !in AllLocks(ch.our);
    FreshEncoding(AllLocks(ch.our), ch.our.pendingLocks, lock);
    hide AmountLocked, Indexed, ProofMatches, Balance;
  }

  lemma TransferFits(ch: Channel, lock: Lock)
    requires Healthy(ch) && CanSendTransfer(ch, lock) && !IsLockPending(ch.our, lock.secrethash)
    requires |ch.our.pendingLocks| < MAXIMUM_PENDING_TRANSFERS
    requires Transferred(ch.our) + CurrentLocked(ch.our) + lock.amount <= UINT256_MAX
    ensures var r := SendTransfer(ch, lock);
      var m := Locked(lock, r.events[0].proof.(signer := Some(ch.our.address)));
      Fits(ch.keccak, ch.id, ch.our.address, LedgerOf(ch.our), m, SenderFunds(ch))
      && LedgerOf(r.channel.our) == Post(LedgerOf(ch.our), m)
  {
    CurrentIsAmount(ch.keccak, ch.our);
    AmountIsSum(ch.our);
    SumInsert(AllLocks(ch.our), lock.secrethash, lock);
    var r := SendTransfer(ch, lock);
    WithProofKeepsLocks(ch.our, r.events[0].proof, ch.our.pendingLocks + [Encode(lock)]);
    AllLocksAdd(WithProof(ch.our, r.events[0].proof, ch.our.pendingLocks + [Encode(lock)]), lock);
    hide AmountLocked, CurrentLocked, Indexed, ProofMatches, AllLocks, SumAmounts, Locksroot, TotalWithdraw;
  }

  lemma UnlockFits(ch: Channel, h: Hash, block: nat)
    requires Healthy(ch) && CanSendUnlock(ch, h, block)
    ensures var r := SendUnlockFor(ch, h, block);
      var m := Unlocked(h, r.events[0].proof.(signer := Some(ch.our.address)));
      Fits(ch.keccak, ch.id, ch.our.address, LedgerOf(ch.our), m, SenderFunds(ch))
      && LedgerOf(r.channel.our) == Post(LedgerOf(ch.our), m)
  {
    hide Accounted, AmountLocked, AllLocks, SumAmounts, Locksroot, TotalWithdraw, RemoveFirst, GetLock,
      IsLockExpired, IsLockPending, Post, Encode;
    var proof := SendUnlockFor(ch, h, block).events[0].proof;
    RemovalMoves(ch.keccak, ch.our, Unlocked(h, proof.(signer := Some(ch.our.address))), proof);
  }

  lemma ExpiredFits(ch: Channel, lock: Lock)
    requires Healthy(ch) && CanSendLockExpired(ch)
    requires Encode(lock) in ch.our.pendingLocks && lock.secrethash !in ch.our.onchain
    ensures var r := SendLockExpiredFor(ch, lock);
      var m := Expired(lock.secrethash, r.events[0].proof.(signer := Some(ch.our.address)));
      Fits(ch.keccak, ch.id, ch.our.address, LedgerOf(ch.our), m, SenderFunds(ch))
      && LedgerOf(r.channel.our) == Post(LedgerOf(ch.our), m)
  {
    hide Accounted, AmountLocked, AllLocks, SumAmounts, Locksroot, TotalWithdraw, RemoveFirst, GetLock,
      IsLockExpired, IsLockPending, Post, Encode;
    EncodingIdentifies(ch.keccak, ch.our, lock);
    var proof := SendLockExpiredFor(ch, lock).events[0].proof;
    RemovalMoves(ch.keccak, ch.our, Expired(lock.secrethash, proof.(signer := Some(ch.our.address))), proof);
  }

  // ---------- receiving ----------

  /** Every fitting transfer is accepted, and moves the copy as it moved the original. */
  lemma TransferAccepted(ch: Channel, lock: Lock, proof: BalanceProof)
    requires Healthy(ch)
    requires Fits(ch.keccak, ch.id, ch.partner.address, LedgerOf(ch.partner), Locked(lock, proof), ReceiverFunds(ch))
    ensures CheckTransfer(ch, proof, lock) == Accept(ch.partner.pendingLocks + [Encode(lock)])
    ensures !IsLockPending(ch.partner, lock.secrethash)
    ensures LedgerOf(AddLock(WithProof(ch.partner, proof, ch.partner.pendingLocks + [Encode(lock)]), lock))
         == Post(LedgerOf(ch.partner), Locked(lock, proof))
  {
    var pending := ch.partner.pendingLocks + [Encode(lock)];
    CurrentIsAmount(ch.keccak, ch.partner);
    AmountIsSum(ch.partner);
    SumInsert(AllLocks(ch.partner), lock.secrethash, lock);
    FreshEncoding(AllLocks(ch.partner), ch.partner.pendingLocks, lock);
    WithProofKeepsLocks(ch.partner, proof, pending);
    AllLocksAdd(WithProof(ch.partner, proof, pending), lock);
    hide AmountLocked, CurrentLocked, Indexed, ProofMatches, AllLocks, SumAmounts, Locksroot, TotalWithdraw;
  }

  lemma UnlockAccepted(ch: Channel, h: Hash, proof: BalanceProof)
    requires Healthy(ch)
    requires Fits(ch.keccak, ch.id, ch.partner.address, LedgerOf(ch.partner), Unlocked(h, proof), ReceiverFunds(ch))
    ensures var check := CheckUnlock(ch, UnlockMsg(h, proof));
      check.Accept?
      && LedgerOf(DelLock(WithProof(ch.partner, proof, check.value), h)) == Post(LedgerOf(ch.partner), Unlocked(h, proof))
  {
    hide Accounted, AmountLocked, CurrentLocked, SumAmounts, Locksroot, TotalWithdraw, RemoveFirst, GetLock,
      Post, Encode;
    CurrentIsAmount(ch.keccak, ch.partner);
    assert IsLockPending(ch.partner, h);
    hide IsLockPending, AllLocks;
    RemovalMoves(ch.keccak, ch.partner, Unlocked(h, proof), proof);
  }

  /** When a node that knows the lock takes the word of its partner that it is over. */
  predicate Ripe(ch: Channel, h: Hash, block: nat)
    requires IsLockPending(ch.partner, h)
  {
    block >= ReceiverThreshold(GetLock(ch.partner, h).value.expiration)
    && h !in ch.partner.onchain && h !in ch.our.onchain
  }

  lemma ExpiredAccepted(ch: Channel, h: Hash, proof: BalanceProof, block: nat)
    requires Healthy(ch)
    requires Fits(ch.keccak, ch.id, ch.partner.address, LedgerOf(ch.partner), Expired(h, proof), ReceiverFunds(ch))
    ensures IsLockPending(ch.partner, h)
    ensures var check := CheckLockExpired(ch, LockExpiredMsg(h, proof), block);
      (check.Accept? <==> Ripe(ch, h, block))
      && (check.Accept? ==>
          LedgerOf(DelUnclaimedLock(WithProof(ch.partner, proof, check.value), h))
          == Post(LedgerOf(ch.partner), Expired(h, proof)))
  {
    hide Accounted, AmountLocked, CurrentLocked, SumAmounts, Locksroot, TotalWithdraw, RemoveFirst, Post, Encode;
    CurrentIsAmount(ch.keccak, ch.partner);
    assert IsLockPending(ch.partner, h);
    RemovalMoves(ch.keccak, ch.partner, Expired(h, proof), proof);
  }

  /** The envelopes a node does not take yet. */
  predicate Waits(ch: Channel, m: Envelope, block: nat)
  {
    m.Expired? && !(IsLockPending(ch.partner, m.secrethash) && Ripe(ch, m.secrethash, block))
  }

  /** The copy of the sender's ledger moves with the envelope; nothing else changes. */
  ghost predicate Copied(ch: Channel, m: Envelope, ch': Channel)
  {
    && ch' == ch.(partner := ch'.partner)
    && LedgerOf(ch'.partner) == Post(LedgerOf(ch.partner), m)
    && ch'.partner.address == ch.partner.address
    && ch'.partner.contractBalance == ch.partner.contractBalance
    && TotalWithdraw(ch'.partner) == TotalWithdraw(ch.partner)
  }

  lemma CopiedFrom(ch: Channel, m: Envelope, ch': Channel)
    requires ch' == ch.(partner := ch'.partner)
    requires LedgerOf(ch'.partner) == Post(LedgerOf(ch.partner), m)
    requires ch.partner == ch'.partner.(
      locked := ch.partner.locked, unlocked := ch.partner.unlocked, onchain := ch.partner.onchain,
      balanceProof := ch.partner.balanceProof, nonce := ch.partner.nonce, pendingLocks := ch.partner.pendingLocks)
    ensures Copied(ch, m, ch')
  {
    hide LedgerOf, Post, MaxTotal;
  }

  /** A fitting envelope is accepted on arrival; only a LockExpired may have to wait until it is ripe. */
  lemma ArrivalAccepted(ch: Channel, m: Envelope, details: Transfer, block: nat)
    requires Healthy(ch) && Fits(ch.keccak, ch.id, ch.partner.address, LedgerOf(ch.partner), m, ReceiverFunds(ch))
    ensures Accepted(ch, Arrival(m, details, block)) <==> !Waits(ch, m, block)
    ensures Allowed(ch, Arrival(m, details, block)) && LockDiscipline(ch, Arrival(m, details, block))
    ensures Apply(ch, Arrival(m, details, block)).channel.Some?
    ensures !Waits(ch, m, block) ==> Copied(ch, m, Apply(ch, Arrival(m, details, block)).channel.value)
  {
    hide Fits, LedgerOf, Post, Healthy, CheckTransfer, CheckUnlock, CheckLockExpired, IsLockPending, Ripe,
      Without, RefundMatches, Copied, ReceiverFunds;
    match m {
      case Locked(lock, proof) => TransferAccepted(ch, lock, proof);
      case Unlocked(h, proof) => UnlockAccepted(ch, h, proof);
      case Expired(h, proof) => ExpiredAccepted(ch, h, proof, block);
    }
    if !Waits(ch, m, block) {
      CopiedFrom(ch, m, Apply(ch, Arrival(m, details, block)).channel.value);
    }
  }
}
