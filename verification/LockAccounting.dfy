/**
 Lock accounting: the three lock maps, the ordered list of encoded locks and the balance proof of
 a channel end describe the same locks, in every state a run can reach.
 */
module LockAccounting {
  import opened LockCodec
  import opened LockMaps
  import opened ChannelState
  import opened ChannelTransitions

  // ---------- one map of locks against one list of encodings ----------

  ghost predicate Filed(locks: LockMap, enc: Bytes)
  {
    exists h :: h in locks && Encode(locks[h]) == enc
  }

  /** Every lock is filed under its own secrethash, and the list holds each encoding exactly once. */
  ghost predicate Indexed(locks: LockMap, pending: seq<Bytes>)
  {
    && (forall h :: h in locks ==> locks[h].secrethash == h)
    && NoDuplicates(pending)
    && (forall h :: h in locks ==> Encode(locks[h]) in pending)
    && (forall enc :: enc in pending ==> Filed(locks, enc))
  }

  lemma FreshEncoding(locks: LockMap, pending: seq<Bytes>, lock: Lock)
    requires Indexed(locks, pending) && lock.secrethash !in locks
    ensures Encode(lock) !in pending
  {
    if Encode(lock) in pending {
      var h :| h in locks && Encode(locks[h]) == Encode(lock);
      EncodeInjective(locks[h], lock);
    }
  }

  lemma IndexedAdd(locks: LockMap, pending: seq<Bytes>, lock: Lock)
    requires Indexed(locks, pending) && lock.secrethash !in locks
    ensures Indexed(locks[lock.secrethash := lock], pending + [Encode(lock)])
  {
    FreshEncoding(locks, pending, lock);
    var locks', pending' := locks[lock.secrethash := lock], pending + [Encode(lock)];
    forall enc | enc in pending' ensures Filed(locks', enc) {
      if enc in pending {
        var h :| h in locks && Encode(locks[h]) == enc;
        assert h in locks' && Encode(locks'[h]) == enc;
      } else {
        assert lock.secrethash in locks' && Encode(locks'[lock.secrethash]) == enc;
      }
    }
  }

  lemma IndexedRemove(locks: LockMap, pending: seq<Bytes>, h: Hash)
    requires Indexed(locks, pending) && h in locks
    ensures Encode(locks[h]) in pending
    ensures Indexed(Without(locks, h), RemoveFirst(pending, Encode(locks[h])))
  {
    var enc := Encode(locks[h]);
    var locks', pending' := Without(locks, h), RemoveFirst(pending, enc);
    RemoveFirstDistinct(pending, enc);
    forall g | g in locks' ensures Encode(locks'[g]) in pending' {
      EncodeInjective(locks[g], locks[h]);
    }
    forall x | x in pending' ensures Filed(locks', x) {
      var g :| g in locks && Encode(locks[g]) == x;
      assert g in locks' && Encode(locks'[g]) == x;
    }
  }

  /** Overwriting a filed lock with a different one leaves the old encoding without a lock. */
  lemma OverwriteBreaks(locks: LockMap, pending: seq<Bytes>, lock: Lock)
    requires Indexed(locks, pending) && lock.secrethash in locks && Encode(lock) !in pending
    ensures !Indexed(locks[lock.secrethash := lock], pending + [Encode(lock)])
  {
    var first := locks[lock.secrethash];
    var locks', pending' := locks[lock.secrethash := lock], pending + [Encode(lock)];
    assert Encode(first) in pending && Encode(first) in pending';
    if Filed(locks', Encode(first)) {
      var h :| h in locks' && Encode(locks'[h]) == Encode(first);
      EncodeInjective(locks'[h], first);
    }
  }

  // ---------- a channel end ----------

  /** The union of the three maps. */
  function AllLocks(e: End): (r: LockMap)
    ensures forall h :: h in r <==> IsLockPending(e, h)
    ensures forall h :: h in r ==> GetLock(e, h) == Some(r[h])
  {
    map h | h in e.locked.Keys + e.unlocked.Keys + e.onchain.Keys :: GetLock(e, h).value
  }

  ghost predicate DisjointMaps(e: End)
  {
    e.locked.Keys !! e.unlocked.Keys && e.locked.Keys !! e.onchain.Keys && e.unlocked.Keys !! e.onchain.Keys
  }

  /** The balance proof commits to exactly the locks the maps hold; without one there are none. */
  ghost predicate ProofMatches(keccak: Bytes -> Hash, e: End)
  {
    if e.balanceProof.Some? then
      e.balanceProof.value.lockedAmount == AmountLocked(e)
      && e.balanceProof.value.locksroot == Locksroot(keccak, e.pendingLocks)
    else e.pendingLocks == [] && AllLocks(e) == map[]
  }

  ghost predicate Accounted(keccak: Bytes -> Hash, e: End)
  {
    DisjointMaps(e) && Indexed(AllLocks(e), e.pendingLocks) && ProofMatches(keccak, e)
  }

  lemma AmountIsSum(e: End)
    requires DisjointMaps(e)
    ensures AmountLocked(e) == SumAmounts(AllLocks(e))
  {
    SumUnion(e.locked, LocksOf(e.unlocked));
    SumUnion(e.locked + LocksOf(e.unlocked), LocksOf(e.onchain));
    assert AllLocks(e) == e.locked + LocksOf(e.unlocked) + LocksOf(e.onchain);
  }

  // The effect of each update on the union.

  lemma UnionUnchanged(e: End, e': End)
    requires forall h :: GetLock(e', h) == GetLock(e, h)
    ensures AllLocks(e') == AllLocks(e)
  {
    assert forall h :: IsLockPending(e', h) <==> GetLock(e', h).Some?;
  }

  lemma UnionWithout(e: End, e': End, h: Hash)
    requires forall g :: GetLock(e', g) == if g == h then None else GetLock(e, g)
    ensures AllLocks(e') == Without(AllLocks(e), h)
  {
    assert forall g :: IsLockPending(e', g) <==> GetLock(e', g).Some?;
  }

  lemma AllLocksAdd(e: End, lock: Lock)
    requires DisjointMaps(e) && !IsLockPending(e, lock.secrethash)
    ensures DisjointMaps(AddLock(e, lock))
    ensures AllLocks(AddLock(e, lock)) == AllLocks(e)[lock.secrethash := lock]
  {
  }

  lemma AllLocksDel(e: End, h: Hash)
    requires DisjointMaps(e)
    ensures DisjointMaps(DelLock(e, h)) && AllLocks(DelLock(e, h)) == Without(AllLocks(e), h)
  {
    UnionWithout(e, DelLock(e, h), h);
  }

  lemma AllLocksDelUnclaimed(e: End, h: Hash)
    requires DisjointMaps(e) && h !in e.onchain
    ensures DisjointMaps(DelUnclaimedLock(e, h))
    ensures AllLocks(DelUnclaimedLock(e, h)) == Without(AllLocks(e), h)
  {
    UnionWithout(e, DelUnclaimedLock(e, h), h);
  }

  /** Learning a secret moves a lock between the maps and changes nothing else. */
  lemma AllLocksRegister(e: End, secret: Bytes, h: Hash)
    requires DisjointMaps(e)
    ensures DisjointMaps(RegisterSecretEnd(e, secret, h))
    ensures AllLocks(RegisterSecretEnd(e, secret, h)) == AllLocks(e)
  {
    UnionUnchanged(e, RegisterSecretEnd(e, secret, h));
  }

  lemma AllLocksRegisterOnchain(e: End, secret: Bytes, h: Hash, block: nat)
    requires DisjointMaps(e)
    ensures DisjointMaps(RegisterOnchainEnd(e, secret, h, block, true))
    ensures AllLocks(RegisterOnchainEnd(e, secret, h, block, true)) == AllLocks(e)
  {
    UnionUnchanged(e, RegisterOnchainEnd(e, secret, h, block, true));
  }

  // The effect of each update on the accounting.

  lemma WithProofKeepsLocks(e: End, proof: BalanceProof, pending: seq<Bytes>)
    ensures var e' := WithProof(e, proof, pending);
      AllLocks(e') == AllLocks(e) && (DisjointMaps(e') <==> DisjointMaps(e))
  {
  }

  lemma CurrentIsAmount(keccak: Bytes -> Hash, e: End)
    requires Accounted(keccak, e)
    ensures CurrentLocked(e) == AmountLocked(e)
    ensures CurrentLocksroot(keccak, e) == Locksroot(keccak, e.pendingLocks)
  {
    AmountIsSum(e);
  }

  lemma AccountedAdd(keccak: Bytes -> Hash, e: End, proof: BalanceProof, lock: Lock)
    requires Accounted(keccak, e) && !IsLockPending(e, lock.secrethash)
    requires proof.lockedAmount == AmountLocked(e) + lock.amount
    requires proof.locksroot == Locksroot(keccak, e.pendingLocks + [Encode(lock)])
    ensures Accounted(keccak, AddLock(WithProof(e, proof, e.pendingLocks + [Encode(lock)]), lock))
  {
    var e1 := WithProof(e, proof, e.pendingLocks + [Encode(lock)]);
    var e2 := AddLock(e1, lock);
    WithProofKeepsLocks(e, proof, e1.pendingLocks);
    AllLocksAdd(e1, lock);
    IndexedAdd(AllLocks(e), e.pendingLocks, lock);
    AmountIsSum(e);
    AmountIsSum(e2);
    SumInsert(AllLocks(e), lock.secrethash, lock);
  }

  lemma PendingEncoding(keccak: Bytes -> Hash, e: End, h: Hash)
    requires Accounted(keccak, e) && IsLockPending(e, h)
    ensures GetLock(e, h).value.secrethash == h && Encode(GetLock(e, h).value) in e.pendingLocks
    ensures AllLocks(e)[h] == GetLock(e, h).value
  {
    assert h in AllLocks(e);
  }

  /** The common part of removing a lock by unlocking it and by expiring it. */
  lemma AccountedRemove(keccak: Bytes -> Hash, e: End, e': End, h: Hash)
    requires Accounted(keccak, e) && IsLockPending(e, h)
    requires DisjointMaps(e') && AllLocks(e') == Without(AllLocks(e), h)
    requires Encode(GetLock(e, h).value) in e.pendingLocks
    requires e'.pendingLocks == RemoveFirst(e.pendingLocks, Encode(GetLock(e, h).value))
    requires e'.balanceProof.Some?
    requires e'.balanceProof.value.lockedAmount == AmountLocked(e) - GetLock(e, h).value.amount
    requires e'.balanceProof.value.locksroot == Locksroot(keccak, e'.pendingLocks)
    ensures Accounted(keccak, e')
  {
    PendingEncoding(keccak, e, h);
    IndexedRemove(AllLocks(e), e.pendingLocks, h);
    AmountIsSum(e);
    AmountIsSum(e');
    SumRemove(AllLocks(e), h);
  }

  lemma AccountedDel(keccak: Bytes -> Hash, e: End, proof: BalanceProof, pending: seq<Bytes>, h: Hash)
    requires Accounted(keccak, e) && IsLockPending(e, h)
    requires LocksWithout(e.pendingLocks, Encode(GetLock(e, h).value)) == Some(pending)
    requires proof.lockedAmount == AmountLocked(e) - GetLock(e, h).value.amount
    requires proof.locksroot == Locksroot(keccak, pending)
    ensures Accounted(keccak, DelLock(WithProof(e, proof, pending), h))
    ensures h !in e.onchain ==> Accounted(keccak, DelUnclaimedLock(WithProof(e, proof, pending), h))
  {
    var e1 := WithProof(e, proof, pending);
    WithProofKeepsLocks(e, proof, pending);
    AllLocksDel(e1, h);
    AccountedRemove(keccak, e, DelLock(e1, h), h);
    if h !in e.onchain {
      AllLocksDelUnclaimed(e1, h);
      AccountedRemove(keccak, e, DelUnclaimedLock(e1, h), h);
    }
  }

  lemma AccountedRegister(keccak: Bytes -> Hash, e: End, secret: Bytes, h: Hash, block: nat)
    requires Accounted(keccak, e)
    ensures Accounted(keccak, RegisterSecretEnd(e, secret, h))
    ensures Accounted(keccak, RegisterOnchainEnd(e, secret, h, block, true))
  {
    AllLocksRegister(e, secret, h);
    AllLocksRegisterOnchain(e, secret, h, block);
    AmountIsSum(e);
    AmountIsSum(RegisterSecretEnd(e, secret, h));
    AmountIsSum(RegisterOnchainEnd(e, secret, h, block, true));
  }
}
