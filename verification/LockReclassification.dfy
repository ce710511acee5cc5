/**
 After settlement: an older state of a channel end, restored because the channel was settled with
 an outdated balance proof, is brought up to date with what has happened on-chain since.
 */
module LockReclassification {
  import opened LockCodec
  import opened LockMaps
  import opened ChannelState
  import opened LockAccounting
  import opened NettingChannel

  /** Everything that was not yet registered on-chain counts as locked. */
  function Open(e: End): LockMap { e.locked + LocksOf(e.unlocked) }

  /** Still locked: not registered since, and some task still cares. */
  function LockedAfter(e: End, now: End, tasks: set<Hash>): LockMap
  {
    map h | h in Open(e) && h !in now.onchain && h in tasks :: Open(e)[h]
  }

  /** Registered before, or registered since. */
  function OnchainAfter(e: End, now: End): ProofMap
  {
    map h | h in e.onchain.Keys + (Open(e).Keys * now.onchain.Keys) ::
      if h in Open(e) && h in now.onchain then now.onchain[h] else e.onchain[h]
  }

  function Reclassified(e: End, now: End, tasks: set<Hash>): End
  {
    e.(locked := LockedAfter(e, now, tasks), unlocked := map[], onchain := OnchainAfter(e, now))
  }

  /** `_update_lock_info`, in place on the restored end state. */
  method UpdateLockInfo(restored: EndState, current: EndState, tasks: set<Hash>)
    requires restored != current
    modifies restored`locked, restored`unlocked, restored`onchain
    ensures restored.View() == Reclassified(old(restored.View()), current.View(), tasks)
  {
    hide Moved, Open, LocksOf;
    ghost var e := restored.View();
    var now := current.onchain;
    restored.locked := restored.locked + LocksOf(restored.unlocked);
    restored.unlocked := map[];
    MovedStart(e, now);
    var todo := now.Keys;
    assert now.Keys - todo == {};
    while todo != {}
      invariant todo <= now.Keys && current.onchain == now
      invariant restored.View() == e.(locked := restored.locked, unlocked := map[], onchain := restored.onchain)
      invariant Moved(e, now, now.Keys - todo, restored.locked, restored.onchain)
      decreases todo
    {
      var h :| h in todo;
      ghost var locked, onchain, before := restored.locked, restored.onchain, now.Keys - todo;
      if h in restored.locked {
        restored.locked := restored.locked - {h};
        restored.onchain := restored.onchain[h := now[h]];
      }
      MoveOne(e, now, before, locked, onchain, h);
      todo := todo - {h};
      assert now.Keys - todo == before + {h};
    }
    assert now.Keys - {} == now.Keys;
    MovedAll(e, current.View(), tasks, restored.locked, restored.onchain);
    restored.locked := map h | h in restored.locked && h in tasks :: restored.locked[h];
  }

  lemma MovedAll(e: End, now: End, tasks: set<Hash>, locked: LockMap, onchain: ProofMap)
    requires Moved(e, now.onchain, now.onchain.Keys, locked, onchain)
    ensures (map h | h in locked && h in tasks :: locked[h]) == LockedAfter(e, now, tasks)
    ensures onchain == OnchainAfter(e, now)
  {
  }

  /** The two maps once the hashes in `done` have been looked at. */
  ghost predicate Moved(e: End, now: ProofMap, done: set<Hash>, locked: LockMap, onchain: ProofMap)
  {
    && (forall h :: h in locked <==> h in Open(e) && h !in done)
    && (forall h :: h in locked ==> locked[h] == Open(e)[h])
    && (forall h :: h in onchain <==> h in e.onchain || (h in Open(e) && h in done))
    && done <= now.Keys
    && (forall h :: h in onchain ==>
          onchain[h] == if h in Open(e) && h in done then now[h] else e.onchain[h])
  }

  lemma MovedStart(e: End, now: ProofMap)
    ensures Moved(e, now, {}, e.locked + LocksOf(e.unlocked), e.onchain)
  {
  }

  lemma MoveOne(e: End, now: ProofMap, done: set<Hash>, locked: LockMap, onchain: ProofMap, h: Hash)
    requires Moved(e, now, done, locked, onchain) && h in now && h !in done
    ensures if h in locked then Moved(e, now, done + {h}, locked - {h}, onchain[h := now[h]])
            else Moved(e, now, done + {h}, locked, onchain)
  {
    hide Open;
  }

  // ---------- what it is for ----------

  /** Disjoint maps stay disjoint, and nothing is left unlocked off-chain. */
  lemma ReclassifiedDisjoint(e: End, now: End, tasks: set<Hash>)
    requires DisjointMaps(e)
    ensures DisjointMaps(Reclassified(e, now, tasks)) && Reclassified(e, now, tasks).unlocked == map[]
  {
  }

  /** Exactly when the result is disjoint, whatever went in. */
  lemma DisjointExactly(e: End, now: End, tasks: set<Hash>)
    ensures DisjointMaps(Reclassified(e, now, tasks))
       <==> forall h :: h in Open(e) && h in e.onchain ==> h in now.onchain || h !in tasks
  {
    var r := Reclassified(e, now, tasks);
    if h :| h in Open(e) && h in e.onchain && !(h in now.onchain || h !in tasks) {
      assert h in r.locked && h in r.onchain;
    }
  }

  /** The locks that disappear: still open, not registered, and without a task. */
  function Dropped(e: End, now: End, tasks: set<Hash>): LockMap
  {
    map h | h in Open(e) && h !in now.onchain && h !in tasks :: Open(e)[h]
  }

  /** A secrethash stands for the same lock before and after. */
  ghost predicate LocksAgree(e: End, now: End)
  {
    forall h :: h in Open(e) && h in now.onchain ==> now.onchain[h].lock == Open(e)[h]
  }

  lemma ReclassifiedUnion(e: End, now: End, tasks: set<Hash>)
    requires DisjointMaps(e) && LocksAgree(e, now)
    ensures var r := Reclassified(e, now, tasks); var gone := Dropped(e, now, tasks);
      r.locked.Keys !! LocksOf(r.onchain).Keys && (r.locked + LocksOf(r.onchain)).Keys !! gone.Keys
      && r.locked + LocksOf(r.onchain) + gone == Open(e) + LocksOf(e.onchain)
  {
    hide Open, Reclassified, Dropped, LocksAgree, LocksOf;
    var r, gone := Reclassified(e, now, tasks), Dropped(e, now, tasks);
    var all, before := r.locked + LocksOf(r.onchain) + gone, Open(e) + LocksOf(e.onchain);
    forall h
      ensures h !in r.locked || h !in r.onchain
      ensures h in gone ==> h !in r.locked && h !in r.onchain
      ensures h in all <==> h in before
      ensures h in all ==> all[h] == before[h]
    {
      ReclassifiedAt(e, now, tasks, h);
    }
  }

  /** What becomes of one lock. */
  lemma ReclassifiedAt(e: End, now: End, tasks: set<Hash>, h: Hash)
    requires DisjointMaps(e) && LocksAgree(e, now)
    ensures var r := Reclassified(e, now, tasks); var gone := Dropped(e, now, tasks);
      (h in r.locked <==> h in Open(e) && h !in now.onchain && h in tasks)
      && (h in gone <==> h in Open(e) && h !in now.onchain && h !in tasks)
      && (h in r.onchain <==> h in e.onchain || (h in Open(e) && h in now.onchain))
      && (h in Open(e) ==> h !in e.onchain)
      && (h in r.locked ==> r.locked[h] == Open(e)[h])
      && (h in gone ==> gone[h] == Open(e)[h])
      && (h in r.onchain ==> r.onchain[h].lock == if h in Open(e) then Open(e)[h] else e.onchain[h].lock)
  {
    assert h in Open(e) ==> h !in e.onchain;
    hide Open;
  }

  /**
   The two gain sums share no lock, and together with the locks that were dropped they account for
   everything the restored state had pending.
   */
  lemma GainsAccountForAll(e: End, now: End, tasks: set<Hash>)
    requires DisjointMaps(e) && LocksAgree(e, now)
    ensures var r := Reclassified(e, now, tasks);
      SumAmounts(r.locked) + SumAmounts(LocksOf(r.onchain)) + SumAmounts(Dropped(e, now, tasks)) == AmountLocked(e)
  {
    var r, gone := Reclassified(e, now, tasks), Dropped(e, now, tasks);
    ReclassifiedUnion(e, now, tasks);
    hide Reclassified, Dropped;
    SumUnion(r.locked, LocksOf(r.onchain));
    SumUnion(r.locked + LocksOf(r.onchain), gone);
    SumUnion(e.locked, LocksOf(e.unlocked));
    SumUnion(Open(e), LocksOf(e.onchain));
  }
}
