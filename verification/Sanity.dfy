/**
 Exactly when `sanity_check`, which the source runs after every state change, holds along the runs
 that respect the lock discipline and whose withdraws fit: always, except when the cooperative
 settlement that excused a withdraw of nothing is taken back before that withdraw expires.
 */
module Sanity {
  import opened LockCodec
  import opened LockMaps
  import opened ChannelState
  import opened ChannelValidation
  import opened ChannelTransitions
  import opened ChannelRuns
  import opened LockAccounting
  import opened AccountedRuns
  import opened Solvency
  import opened Nonces
  import opened WithdrawOrder

  /** Every total is larger than the one before it, starting above `previous`. */
  predicate Ascending(ws: seq<Withdraw>, previous: int)
  {
    ws == [] || (ws[0].total > previous && Ascending(ws[1..], ws[0].total))
  }

  predicate LocksSynchronized(e: End)
  {
    && (forall h :: h in e.locked ==> Encode(e.locked[h]) in e.pendingLocks)
    && (forall h :: h in e.unlocked ==> Encode(e.unlocked[h].lock) in e.pendingLocks)
    && (forall h :: h in e.onchain ==> Encode(e.onchain[h].lock) in e.pendingLocks)
  }

  /** The assertions of `sanity_check`, one by one. */
  predicate SanityCheck(ch: Channel)
  {
    var ourBalance, partnerBalance := Balance(ch.our, ch.partner), Balance(ch.partner, ch.our);
    && (ch.our.coopSettle.Some? || ch.partner.coopSettle.Some? || Ascending(ch.our.withdrawsPending, 0))
    && ourBalance >= 0
    && partnerBalance >= 0
    && ourBalance + partnerBalance == Capacity(ch)
    && AmountLocked(ch.partner) == CurrentLocked(ch.partner)
    && AmountLocked(ch.our) == CurrentLocked(ch.our)
    && Distributable(ch.our, ch.partner) + AmountLocked(ch.our) <= ourBalance
    && Distributable(ch.partner, ch.our) + AmountLocked(ch.partner) <= partnerBalance
    && Locksroot(ch.keccak, ch.our.pendingLocks) == CurrentLocksroot(ch.keccak, ch.our)
    && Locksroot(ch.keccak, ch.partner.pendingLocks) == CurrentLocksroot(ch.keccak, ch.partner)
    && LocksSynchronized(ch.partner)
    && LocksSynchronized(ch.our)
  }

  lemma AccountedSynchronized(keccak: Bytes -> Hash, e: End)
    requires Accounted(keccak, e)
    ensures LocksSynchronized(e)
  {
    hide AmountLocked, ProofMatches, Encode;
    forall h | h in e.locked ensures Encode(e.locked[h]) in e.pendingLocks {
      assert h in AllLocks(e) && AllLocks(e)[h] == e.locked[h];
    }
    forall h | h in e.unlocked ensures Encode(e.unlocked[h].lock) in e.pendingLocks {
      assert h in AllLocks(e) && AllLocks(e)[h] == e.unlocked[h].lock;
    }
    forall h | h in e.onchain ensures Encode(e.onchain[h].lock) in e.pendingLocks {
      assert h in AllLocks(e) && AllLocks(e)[h] == e.onchain[h].lock;
    }
  }

  lemma {:induction false} AscendingFrom(ws: seq<Withdraw>, previous: int)
    requires forall i, j :: 0 <= i < j < |ws| ==> ws[i].total < ws[j].total
    requires forall w :: w in ws ==> w.total > previous
    ensures Ascending(ws, previous)
  {
    if ws != [] {
      forall w | w in ws[1..] ensures w.total > ws[0].total {
        var i :| 0 <= i < |ws[1..]| && ws[1..][i] == w;
        assert ws[i + 1] == w;
      }
      AscendingFrom(ws[1..], ws[0].total);
    }
  }

  /** Our withdraws in the order of their totals, none of them negative. */
  ghost predicate Climbing(ws: seq<Withdraw>)
  {
    (forall i, j :: 0 <= i < j < |ws| ==> ws[i].total < ws[j].total) && (forall w :: w in ws ==> w.total >= 0)
  }

  ghost predicate Positive(ws: seq<Withdraw>)
  {
    forall w :: w in ws ==> w.total > 0
  }

  lemma ClimbingDrop(ws: seq<Withdraw>, total: int)
    requires Climbing(ws)
    ensures Climbing(DropWithdraw(ws, total)) && (Positive(ws) ==> Positive(DropWithdraw(ws, total)))
  {
    var i := DropShape(ws, total);
  }

  /** A total that is at least as large as the others goes to the end, or replaces the last. */
  lemma ClimbingPut(ws: seq<Withdraw>, w: Withdraw)
    requires Climbing(ws) && w.total >= 0 && forall x :: x in ws ==> x.total <= w.total
    ensures Climbing(PutWithdraw(ws, w))
    ensures Positive(ws) && w.total > 0 ==> Positive(PutWithdraw(ws, w))
  {
    var i := PutShape(ws, w);
    assert forall k :: 0 <= k < |ws| ==> ws[k].total <= w.total;
  }

  lemma AscendingExactly(ws: seq<Withdraw>)
    requires Climbing(ws)
    ensures Ascending(ws, 0) <==> Positive(ws)
  {
    if Positive(ws) {
      AscendingFrom(ws, 0);
    } else {
      var w :| w in ws && w.total <= 0;
      var i :| 0 <= i < |ws| && ws[i] == w;
      assert ws[0].total <= w.total;
    }
  }

  /** A cooperative settlement is in force. */
  predicate Cooperating(ch: Channel) { ch.our.coopSettle.Some? || ch.partner.coopSettle.Some? }

  /** With the invariants, the check can only fail on a withdraw of nothing that no settlement excuses. */
  lemma SanityExactly(ch: Channel)
    requires BothAccounted(ch) && Solvent(ch) && Climbing(ch.our.withdrawsPending)
    ensures SanityCheck(ch) <==> Cooperating(ch) || Positive(ch.our.withdrawsPending)
  {
    AccountedSynchronized(ch.keccak, ch.our);
    AccountedSynchronized(ch.keccak, ch.partner);
    CurrentIsAmount(ch.keccak, ch.our);
    CurrentIsAmount(ch.keccak, ch.partner);
    AscendingExactly(ch.our.withdrawsPending);
    hide Accounted, AmountLocked, TotalWithdraw, Ascending, Transferred, Climbing, Positive;
  }

  // ---------- the order of our withdraws ----------

  /** Our withdraws change with a request only when we join the partner's settlement. */
  lemma RequestWithdraws(ch: Channel, m: WithdrawMsg, block: nat)
    requires RequestMatchesCoopSettle(ch, m)
    ensures var ch' := ReceiveWithdrawRequest(ch, m, block).channel;
      if DoublesRequest(ch, GotWithdrawRequest(m, block)) then
        ch'.partner.coopSettle.Some? && ch'.our.withdrawsPending
        == PutWithdraw(ch.our.withdrawsPending,
                       Withdraw(MaxWithdraw(ch.our, ch.partner), m.expiration, NextNonce(ch.our)))
      else ch'.our.withdrawsPending == ch.our.withdrawsPending && (Cooperating(ch) ==> Cooperating(ch'))
  {
    hide CheckWithdrawRequest, CheckRequestUnderCoopSettle, PutWithdraw;
  }

  /** Expiring withdraws either changes nothing or removes the smallest one. */
  lemma ExpiryClimbs(e: End, block: nat)
    requires Climbing(e.withdrawsPending)
    ensures var r := ExpireWithdraws(e, e.withdrawsPending, block).end;
      Climbing(r.withdrawsPending) && (r == e || Positive(r.withdrawsPending))
  {
    var ws := e.withdrawsPending;
    if ws != [] && WithdrawIsExpired(ws[0], block) {
      var i := DropShape(ws, ws[0].total);
      assert DropWithdraw(ws, ws[0].total) == ws[1..];
      assert forall w :: w in ws[1..] ==> w.total > ws[0].total;
      RestClimbs(ExpireOne(e, ws[0]), ws[1..], block);
    }
  }

  lemma {:induction false} RestClimbs(e: End, ws: seq<Withdraw>, block: nat)
    requires Climbing(e.withdrawsPending) && Positive(e.withdrawsPending)
    ensures var r := ExpireWithdraws(e, ws, block).end.withdrawsPending; Climbing(r) && Positive(r)
    decreases ws
  {
    hide Climbing, Positive, DropWithdraw;
    if ws != [] && WithdrawIsExpired(ws[0], block) {
      ClimbingDrop(e.withdrawsPending, ws[0].total);
      RestClimbs(ExpireOne(e, ws[0]), ws[1..], block);
    }
  }

  lemma ActionClimbs(ch: Channel, s: Step)
    requires s.DoWithdraw? || s.DoCoopSettle?
    requires Climbing(ch.our.withdrawsPending)
    ensures var ch' := Apply(ch, s).channel.value;
      Climbing(ch'.our.withdrawsPending) && (Cooperating(ch) ==> Cooperating(ch'))
      && (Cooperating(ch') || (Positive(ch.our.withdrawsPending) ==> Positive(ch'.our.withdrawsPending)))
  {
    hide Balance, PutWithdraw, Climbing, Positive, MaxWithdraw, GetStatus;
    var total := if s.DoWithdraw? then s.total else MaxWithdraw(ch.our, ch.partner);
    if total >= TotalWithdraw(ch.our) {
      ClimbingPut(ch.our.withdrawsPending,
                  Withdraw(total, SafeInitialExpiration(s.block, ch.revealTimeout), NextNonce(ch.our)));
    }
  }

  lemma RequestClimbs(ch: Channel, m: WithdrawMsg, block: nat)
    requires Climbing(ch.our.withdrawsPending) && Solvent(ch) && RequestMatchesCoopSettle(ch, m)
    ensures var ch' := ReceiveWithdrawRequest(ch, m, block).channel;
      Climbing(ch'.our.withdrawsPending) && (Cooperating(ch) ==> Cooperating(ch'))
      && (Cooperating(ch') || ch'.our.withdrawsPending == ch.our.withdrawsPending)
  {
    hide ReceiveWithdrawRequest, DoublesRequest, RequestMatchesCoopSettle, PutWithdraw, Climbing, AmountLocked;
    RequestWithdraws(ch, m, block);
    ClimbingPut(ch.our.withdrawsPending,
                Withdraw(MaxWithdraw(ch.our, ch.partner), m.expiration, NextNonce(ch.our)));
  }

  /** All other steps leave our withdraws alone, and only an expiry ends a settlement. */
  lemma QuietSteps(ch: Channel, s: Step)
    requires !(s.DoWithdraw? || s.DoCoopSettle? || s.GotWithdrawRequest? || s.NewBlock? || s.Withdrawn?)
    requires Allowed(ch, s) && Apply(ch, s).channel.Some?
    ensures var ch' := Apply(ch, s).channel.value;
      ch'.our.withdrawsPending == ch.our.withdrawsPending && (ch'.our.coopSettle.Some? <==> ch.our.coopSettle.Some?)
      && (!s.GotWithdrawExpired? ==> ch'.partner.coopSettle == ch.partner.coopSettle)
  {
    hide CheckTransfer, CheckRefund, CheckUnlock, CheckLockExpired, CheckWithdrawConfirmation, CheckWithdrawExpired,
      NoLocksRoot, DropWithdraw, FindWithdraw, GetStatus, Finish, ExpireCoopSettle,
      Without, AmountLocked, Locksroot, RemoveFirst, GetLock, CanSendTransfer, CanSendUnlock;
  }

  lemma StepClimbs(ch: Channel, s: Step)
    requires Climbing(ch.our.withdrawsPending) && Solvent(ch) && Allowed(ch, s) && Apply(ch, s).channel.Some?
    ensures Climbing(Apply(ch, s).channel.value.our.withdrawsPending)
  {
    hide Climbing, Solvent, RequestMatchesCoopSettle, ReceiveWithdrawRequest;
    if s.DoWithdraw? || s.DoCoopSettle? {
      ActionClimbs(ch, s);
    } else if s.GotWithdrawRequest? {
      RequestClimbs(ch, s.withdraw, s.block);
    } else if s.NewBlock? {
      ExpiryClimbs(ch.our, s.block);
      hide ExpireWithdraws, GetStatus;
    } else if s.Withdrawn? {
      ClimbingDrop(ch.our.withdrawsPending, s.amount);
      hide DropWithdraw;
    } else {
      hide Apply, Allowed;
      QuietSteps(ch, s);
    }
  }

  // ---------- one step of the check ----------

  /**
   The one way to fail: the partner takes back its settlement while a withdraw of nothing, which
   only that settlement excused, is still pending on our side.
   */
  ghost predicate Strands(ch: Channel, s: Step)
  {
    && s.GotWithdrawExpired? && CheckWithdrawExpired(ch, s.withdrawExpired, s.block).Accept?
    && ch.partner.coopSettle.Some? && ch.our.coopSettle.None?
    && ExpireCoopSettle(ch.partner.coopSettle,
                        FindWithdraw(ch.partner.withdrawsPending, s.withdrawExpired.total).value).None?
    && !Positive(ch.our.withdrawsPending)
  }

  ghost predicate Excused(ch: Channel) { Cooperating(ch) || Positive(ch.our.withdrawsPending) }

  lemma ExpiryStrands(ch: Channel, m: WithdrawExpiredMsg, block: nat)
    requires Excused(ch)
    ensures Excused(ReceiveWithdrawExpired(ch, m, block).channel) <==> !Strands(ch, GotWithdrawExpired(m, block))
  {
    hide CheckWithdrawExpired, DropWithdraw, Positive;
  }

  lemma StepExcused(ch: Channel, s: Step)
    requires Climbing(ch.our.withdrawsPending) && Solvent(ch) && Excused(ch)
    requires Allowed(ch, s) && Apply(ch, s).channel.Some?
    ensures Excused(Apply(ch, s).channel.value) <==> !Strands(ch, s)
  {
    hide Climbing, Positive, Solvent, RequestMatchesCoopSettle, ReceiveWithdrawRequest;
    if s.GotWithdrawExpired? {
      ExpiryStrands(ch, s.withdrawExpired, s.block);
      hide ReceiveWithdrawExpired;
    } else if s.DoWithdraw? || s.DoCoopSettle? {
      ActionClimbs(ch, s);
    } else if s.GotWithdrawRequest? {
      RequestClimbs(ch, s.withdraw, s.block);
    } else if s.NewBlock? {
      ExpiryClimbs(ch.our, s.block);
      hide ExpireWithdraws, GetStatus;
    } else if s.Withdrawn? {
      ClimbingDrop(ch.our.withdrawsPending, s.amount);
      hide DropWithdraw;
    } else {
      hide Apply, Allowed;
      QuietSteps(ch, s);
    }
  }

  /** A disciplined, fitting step after which the check fails is exactly one that strands a withdraw. */
  lemma StepSane(ch: Channel, s: Step)
    requires BothAccounted(ch) && Solvent(ch) && Climbing(ch.our.withdrawsPending) && SanityCheck(ch)
    requires Allowed(ch, s) && LockDiscipline(ch, s) && WithdrawFits(ch, s) && Apply(ch, s).channel.Some?
    ensures SanityCheck(Apply(ch, s).channel.value) <==> !Strands(ch, s)
  {
    hide BothAccounted, Solvent, Climbing, SanityCheck, Allowed, LockDiscipline, WithdrawFits, Apply, Strands;
    SanityExactly(ch);
    StepAccounted(ch, s);
    StepSolvent(ch, s);
    StepClimbs(ch, s);
    StepExcused(ch, s);
    SanityExactly(Apply(ch, s).channel.value);
  }

  // ---------- runs ----------

  lemma {:induction false} RunClimbs(ch: Channel, steps: seq<Step>)
    requires BothAccounted(ch) && Solvent(ch) && Climbing(ch.our.withdrawsPending)
    requires IsRun(ch, steps) && Disciplined(ch, steps) && AllWithdrawsFit(ch, steps) && After(ch, steps).Some?
    ensures Climbing(After(ch, steps).value.our.withdrawsPending)
    decreases steps
  {
    hide Apply, Allowed, Climbing, BothAccounted, Solvent, LockDiscipline, WithdrawFits;
    if steps != [] {
      StepClimbs(ch, steps[0]);
      StepAccounted(ch, steps[0]);
      StepSolvent(ch, steps[0]);
      RunClimbs(Apply(ch, steps[0]).channel.value, steps[1..]);
    }
  }

  /**
   The main theorem on reachable states: after every disciplined, fitting run the check holds if and
   only if a settlement is in force or none of our pending withdraws is a withdraw of nothing.
   */
  lemma RunSane(ch: Channel, steps: seq<Step>)
    requires FreshChannel(ch)
    requires IsRun(ch, steps) && Disciplined(ch, steps) && AllWithdrawsFit(ch, steps) && After(ch, steps).Some?
    ensures var ch' := After(ch, steps).value;
      SanityCheck(ch') <==> Cooperating(ch') || Positive(ch'.our.withdrawsPending)
  {
    FreshAccounted(ch);
    FreshSolvent(ch);
    hide FreshChannel, IsRun, Disciplined, AllWithdrawsFit, After, SanityCheck, BothAccounted, BothInRange, Solvent,
      Climbing, Positive;
    RunAccounted(ch, steps);
    RunSolvent(ch, steps);
    RunClimbs(ch, steps);
    SanityExactly(After(ch, steps).value);
  }

  /** Hence every run without such a step passes the check throughout. */
  ghost predicate NeverStrands(ch: Channel, steps: seq<Step>)
    requires IsRun(ch, steps)
    decreases steps
  {
    steps == [] ||
    (!Strands(ch, steps[0])
     && var next := Apply(ch, steps[0]).channel;
        next.Some? ==> NeverStrands(next.value, steps[1..]))
  }

  /** The check holds in every state the run passes through. */
  ghost predicate SaneThroughout(ch: Channel, steps: seq<Step>)
    requires IsRun(ch, steps)
    decreases steps
  {
    SanityCheck(ch) &&
    (steps == [] ||
     var next := Apply(ch, steps[0]).channel;
     next.Some? ==> SaneThroughout(next.value, steps[1..]))
  }

  lemma {:induction false} RunSaneThroughout(ch: Channel, steps: seq<Step>)
    requires BothAccounted(ch) && Solvent(ch) && Climbing(ch.our.withdrawsPending) && SanityCheck(ch)
    requires IsRun(ch, steps) && Disciplined(ch, steps) && AllWithdrawsFit(ch, steps)
    ensures SaneThroughout(ch, steps) <==> NeverStrands(ch, steps)
    decreases steps
  {
    hide Apply, Allowed, Climbing, BothAccounted, Solvent, LockDiscipline, WithdrawFits, SanityCheck, Strands;
    if steps != [] {
      var next := Apply(ch, steps[0]).channel;
      if next.Some? {
        StepClimbs(ch, steps[0]);
        StepAccounted(ch, steps[0]);
        StepSolvent(ch, steps[0]);
        StepSane(ch, steps[0]);
        if !Strands(ch, steps[0]) {
          RunSaneThroughout(next.value, steps[1..]);
        } else if steps[1..] != [] {
          assert !SanityCheck(next.value);
        }
      } else {
        DropStrandsNothing(ch, steps[0]);
      }
    }
  }

  lemma DropStrandsNothing(ch: Channel, s: Step)
    requires Allowed(ch, s) && Apply(ch, s).channel.None?
    ensures !Strands(ch, s)
  {
    hide CheckTransfer, CheckRefund, CheckUnlock, CheckLockExpired, CheckWithdrawExpired, NoLocksRoot, GetStatus,
      CanSendTransfer, CanSendUnlock, RequestMatchesCoopSettle;
  }

  lemma FreshSolvent(ch: Channel)
    requires FreshChannel(ch)
    ensures Solvent(ch) && Climbing(ch.our.withdrawsPending)
  {
  }

  // ---------- a withdraw of nothing ----------

  /** The partner asks for a cooperative settlement, of everything it has deposited. */
  function SettleRequest(ch: Channel, expiration: int): WithdrawMsg
  {
    WithdrawMsg(ch.id, ch.partner.address, ch.partner.address, ch.partner.contractBalance, 1, expiration,
                Some(ch.partner.address), true)
  }

  /** And takes it back when it has expired. */
  function SettleExpired(ch: Channel): WithdrawExpiredMsg
  {
    WithdrawExpiredMsg(ch.id, ch.partner.address, ch.partner.contractBalance, 2)
  }

  /**
   It does happen: on every fresh channel to which we have deposited nothing, the partner can start a
   settlement and let it expire before our own, empty withdraw does; the check then fails.
   */
  lemma NothingAnnouncedFails(ch: Channel, expiration: nat)
    requires FreshChannel(ch) && ch.our.contractBalance == 0 && ch.partner.contractBalance <= UINT256_MAX
    ensures var first := GotWithdrawRequest(SettleRequest(ch, expiration), 0);
      var second := GotWithdrawExpired(SettleExpired(ch), expiration + CONFIRMATIONS);
      IsRun(ch, [first, second]) && After(ch, [first, second]).Some?
      && Strands(Apply(ch, first).channel.value, second) && !SanityCheck(After(ch, [first, second]).value)
  {
    var m := SettleRequest(ch, expiration);
    var first := GotWithdrawRequest(m, 0);
    var second := GotWithdrawExpired(SettleExpired(ch), expiration + CONFIRMATIONS);
    var w, ours := Withdraw(m.total, expiration, 1), Withdraw(0, expiration, 1);
    assert RecordRequest(ch, m).partner.withdrawsPending == [w];
    var ch1 := ReceiveWithdrawRequest(ch, m, 0).channel;
    assert ch1.our.withdrawsPending == [ours] && ch1.partner.withdrawsPending == [w];
    assert ch1.our.coopSettle.None? && ch1.partner.coopSettle == Some(CoopSettle(m.total, 0, expiration, true, false, None));
    var ch2 := ReceiveWithdrawExpired(ch1, SettleExpired(ch), expiration + CONFIRMATIONS).channel;
    assert ch2.our.withdrawsPending == [ours] && ch2.partner.coopSettle.None?;
    assert ours in ch1.our.withdrawsPending && !Positive(ch1.our.withdrawsPending);
    assert !Ascending(ch2.our.withdrawsPending, 0);
    assert !SanityCheck(ch2) && Strands(ch1, second) && Allowed(ch, first);
    assert Apply(ch, first).channel == Some(ch1) && Apply(ch1, second).channel == Some(ch2);
    hide Apply, Allowed, SanityCheck, Strands;
    RunOfTwo(ch, first, second);
  }
}
