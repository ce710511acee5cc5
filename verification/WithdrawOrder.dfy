/**
 Pending withdraws stay ordered, which is what allows the expiry loop to stop at the first withdraw
 that is still live.
 */
module WithdrawOrder {
  import opened LockCodec
  import opened LockMaps
  import opened ChannelState
  import opened ChannelValidation
  import opened ChannelTransitions
  import opened ChannelRuns

  // ---------- the early exit ----------

  /** Expires every expired withdraw of `ws`, without stopping at a live one. */
  function ExpireAll(e: End, ws: seq<Withdraw>, block: nat): Expiry
    decreases ws
  {
    if ws == [] then Expiry(e, [])
    else if !WithdrawIsExpired(ws[0], block) then ExpireAll(e, ws[1..], block)
    else
      var e' := ExpireOne(e, ws[0]);
      var rest := ExpireAll(e', ws[1..], block);
      Expiry(rest.end, [SendWithdrawExpired(ws[0].total, e'.nonce, ws[0].expiration)] + rest.events)
  }

  /** No expired withdraw comes after a live one. */
  ghost predicate ExpiredFirst(ws: seq<Withdraw>, block: nat)
  {
    forall i, j :: 0 <= i < j < |ws| && WithdrawIsExpired(ws[j], block) ==> WithdrawIsExpired(ws[i], block)
  }

  lemma {:induction false} ExpireAllNone(e: End, ws: seq<Withdraw>, block: nat)
    ensures ExpireAll(e, ws, block).events == [] <==> forall w :: w in ws ==> !WithdrawIsExpired(w, block)
    ensures ExpireAll(e, ws, block).events == [] ==> ExpireAll(e, ws, block).end == e
    decreases ws
  {
    if ws != [] {
      assert ws == [ws[0]] + ws[1..];
      if !WithdrawIsExpired(ws[0], block) { ExpireAllNone(e, ws[1..], block); }
    }
  }

  /** Stopping at the first live withdraw is the same as expiring them all, exactly then. */
  lemma {:induction false} EarlyExit(e: End, ws: seq<Withdraw>, block: nat)
    ensures ExpireWithdraws(e, ws, block) == ExpireAll(e, ws, block) <==> ExpiredFirst(ws, block)
    decreases ws
  {
    if ws != [] {
      assert forall i :: 0 < i < |ws| ==> ws[1..][i - 1] == ws[i];
      if WithdrawIsExpired(ws[0], block) {
        EarlyExit(ExpireOne(e, ws[0]), ws[1..], block);
        var a := ExpireWithdraws(ExpireOne(e, ws[0]), ws[1..], block);
        var b := ExpireAll(ExpireOne(e, ws[0]), ws[1..], block);
        assert ExpireWithdraws(e, ws, block).events[1..] == a.events;
        assert ExpireAll(e, ws, block).events[1..] == b.events;
        assert ExpiredFirst(ws, block) <==> ExpiredFirst(ws[1..], block) by {
          if ExpiredFirst(ws[1..], block) {
            forall i, j | 0 <= i < j < |ws| && WithdrawIsExpired(ws[j], block) ensures WithdrawIsExpired(ws[i], block) {
              if i > 0 { assert ws[1..][i - 1] == ws[i] && ws[1..][j - 1] == ws[j]; }
            }
          }
          if ExpiredFirst(ws, block) {
            forall i, j | 0 <= i < j < |ws[1..]| && WithdrawIsExpired(ws[1..][j], block)
              ensures WithdrawIsExpired(ws[1..][i], block) {
              assert ws[1..][i] == ws[i + 1] && ws[1..][j] == ws[j + 1];
            }
          }
        }
      } else {
        ExpireAllNone(e, ws[1..], block);
        if w :| w in ws[1..] && WithdrawIsExpired(w, block) {
          var j :| 0 <= j < |ws[1..]| && ws[1..][j] == w;
          assert WithdrawIsExpired(ws[j + 1], block) && !ExpiredFirst(ws, block);
        } else {
          forall j | 0 < j < |ws| ensures !WithdrawIsExpired(ws[j], block) {
            assert ws[1..][j - 1] == ws[j] && ws[j] in ws[1..];
          }
        }
      }
    }
  }

  // ---------- the order ----------

  ghost predicate Ordered(ws: seq<Withdraw>)
  {
    && (forall i, j :: 0 <= i < j < |ws| ==> ws[i].total < ws[j].total)
    && (forall i, j :: 0 <= i < j < |ws| ==> ws[i].expiration <= ws[j].expiration)
  }

  lemma OrderedExpiredFirst(ws: seq<Withdraw>, block: nat)
    requires Ordered(ws)
    ensures ExpiredFirst(ws, block)
  {
  }

  /** Assigning a key replaces its entry in place, or appends a new one. */
  lemma {:induction false} PutShape(ws: seq<Withdraw>, w: Withdraw) returns (i: nat)
    ensures i <= |ws| && forall k :: 0 <= k < i ==> ws[k].total != w.total
    ensures i < |ws| ==> ws[i].total == w.total && PutWithdraw(ws, w) == ws[i := w]
    ensures i == |ws| ==> PutWithdraw(ws, w) == ws + [w]
  {
    if ws == [] || ws[0].total == w.total {
      i := 0;
    } else {
      var k := PutShape(ws[1..], w);
      i := k + 1;
    }
  }

  /** Deleting a key cuts its entry out. */
  lemma {:induction false} DropShape(ws: seq<Withdraw>, total: int) returns (i: nat)
    ensures i <= |ws| && forall k :: 0 <= k < i ==> ws[k].total != total
    ensures i < |ws| ==> ws[i].total == total && DropWithdraw(ws, total) == ws[..i] + ws[i + 1..]
    ensures i == |ws| ==> DropWithdraw(ws, total) == ws
  {
    if ws == [] || ws[0].total == total {
      i := 0;
    } else {
      var k := DropShape(ws[1..], total);
      i := k + 1;
    }
  }

  /** A larger total is appended, and an equal one replaces the last entry. */
  lemma OrderedPut(ws: seq<Withdraw>, w: Withdraw)
    requires Ordered(ws)
    requires forall x :: x in ws ==> x.total <= w.total && x.expiration <= w.expiration
    ensures Ordered(PutWithdraw(ws, w))
    ensures forall x :: x in PutWithdraw(ws, w) ==> x in ws || x == w
  {
    var i := PutShape(ws, w);
    assert ws != [] ==> ws[|ws| - 1] in ws;
  }

  /** The new entry goes where its total belongs, and does not expire out of turn there. */
  ghost predicate FitsIn(ws: seq<Withdraw>, w: Withdraw)
  {
    && (forall x :: x in ws && x.total < w.total ==> x.expiration <= w.expiration)
    && (forall x :: x in ws && x.total > w.total ==> w.expiration <= x.expiration && exists y :: y in ws && y.total == w.total)
  }

  lemma PutOrderedExactly(ws: seq<Withdraw>, w: Withdraw)
    requires Ordered(ws)
    ensures Ordered(PutWithdraw(ws, w)) <==> FitsIn(ws, w)
  {
    var i := PutShape(ws, w);
    var r := PutWithdraw(ws, w);
    hide PutWithdraw;
    assert r[i] == w && forall k :: 0 <= k < |ws| && k != i ==> r[k] == ws[k];
    assert i < |ws| ==> ws[i] in ws;
    if Ordered(r) {
      forall x | x in ws && x.total != w.total
        ensures if x.total < w.total then x.expiration <= w.expiration else w.expiration <= x.expiration && i < |ws|
      {
        var k :| 0 <= k < |ws| && ws[k] == x;
        assert r[k] == x;
      }
    } else if FitsIn(ws, w) {
      forall k | 0 <= k < |ws| && k != i ensures if k < i then r[k].total < w.total else w.total < r[k].total {
        assert ws[k] in ws;
      }
      forall k | 0 <= k < |ws| && k != i
        ensures if k < i then r[k].expiration <= w.expiration else w.expiration <= r[k].expiration
      {
        assert ws[k] in ws;
      }
    }
  }

  lemma OrderedDrop(ws: seq<Withdraw>, total: int)
    requires Ordered(ws)
    ensures Ordered(DropWithdraw(ws, total))
    ensures forall x :: x in DropWithdraw(ws, total) ==> x in ws
  {
    var i := DropShape(ws, total);
    var r := DropWithdraw(ws, total);
    hide DropWithdraw;
    assert i < |ws| ==> |r| == |ws| - 1 && forall k :: 0 <= k < |r| ==> r[k] == ws[if k < i then k else k + 1];
  }

  lemma {:induction false} OrderedExpire(e: End, ws: seq<Withdraw>, block: nat)
    requires Ordered(e.withdrawsPending)
    ensures var r := ExpireWithdraws(e, ws, block).end.withdrawsPending;
      Ordered(r) && forall x :: x in r ==> x in e.withdrawsPending
    decreases ws
  {
    if ws != [] && WithdrawIsExpired(ws[0], block) {
      OrderedDrop(e.withdrawsPending, ws[0].total);
      OrderedExpire(ExpireOne(e, ws[0]), ws[1..], block);
    }
  }

  // ---------- runs ----------

  /** Our withdraws are ordered, and none expires later than one that would be requested now. */
  ghost predicate InOrder(ch: Channel, now: nat)
  {
    Ordered(ch.our.withdrawsPending)
    && forall w :: w in ch.our.withdrawsPending ==> w.expiration <= SafeInitialExpiration(now, ch.revealTimeout)
  }

  /** The block a step takes its expirations from. */
  function Clock(now: nat, s: Step): nat
  {
    match s
    case DoWithdraw(_, block) => block
    case DoCoopSettle(block) => block
    case NewBlock(block) => block
    case _ => now
  }

  /**
   Blocks do not decrease, the reveal timeout is not lowered, and the partner does not choose the
   expiration of one of our withdraws by starting a cooperative settlement.
   */
  predicate Orderly(ch: Channel, now: nat, s: Step)
  {
    match s
    case DoWithdraw(_, block) => block >= now
    case DoCoopSettle(block) => block >= now
    case NewBlock(block) => block >= now
    case DoSetRevealTimeout(timeout) => timeout >= ch.revealTimeout
    case GotWithdrawRequest(m, _) => !m.coopSettle
    case _ => true
  }

  lemma StepInOrder(ch: Channel, now: nat, s: Step)
    requires InOrder(ch, now) && Orderly(ch, now, s) && Allowed(ch, s) && Apply(ch, s).channel.Some?
    ensures InOrder(Apply(ch, s).channel.value, Clock(now, s))
  {
    if s.DoWithdraw? || s.DoCoopSettle? {
      RequestInOrder(ch, now, s);
    } else if s.NewBlock? {
      OrderedExpire(ch.our, ch.our.withdrawsPending, s.block);
      ExpireWithdrawsFrame(ch.our, ch.our.withdrawsPending, s.block);
      hide Ordered, ExpireWithdraws;
    } else if s.Withdrawn? {
      OrderedDrop(ch.our.withdrawsPending, s.amount);
      hide Ordered;
    } else {
      hide Allowed, Ordered;
      OtherStepsKeepWithdraws(ch, s);
    }
  }

  lemma RequestInOrder(ch: Channel, now: nat, s: Step)
    requires s.DoWithdraw? || s.DoCoopSettle?
    requires InOrder(ch, now) && s.block >= now
    ensures InOrder(Apply(ch, s).channel.value, s.block)
  {
    hide Ordered, Balance, MaxWithdraw, PutWithdraw;
    var total := if s.DoWithdraw? then s.total else MaxWithdraw(ch.our, ch.partner);
    var w := Withdraw(total, SafeInitialExpiration(s.block, ch.revealTimeout), NextNonce(ch.our));
    if total >= TotalWithdraw(ch.our) {
      OrderedPut(ch.our.withdrawsPending, w);
    }
  }

  lemma OtherStepsKeepWithdraws(ch: Channel, s: Step)
    requires !(s.DoWithdraw? || s.DoCoopSettle? || s.NewBlock? || s.Withdrawn?)
    requires s.GotWithdrawRequest? ==> !s.withdraw.coopSettle
    requires Allowed(ch, s) && Apply(ch, s).channel.Some?
    ensures var ch' := Apply(ch, s).channel.value;
      ch'.our.withdrawsPending == ch.our.withdrawsPending
      && (ch'.revealTimeout == ch.revealTimeout || (s.DoSetRevealTimeout? && ch'.revealTimeout == s.timeout))
  {
    hide CheckTransfer, CheckRefund, CheckUnlock, CheckLockExpired, CheckWithdrawRequest,
      CheckWithdrawConfirmation, CheckWithdrawExpired, CheckRequestUnderCoopSettle,
      NoLocksRoot, MaxWithdraw, PutWithdraw, DropWithdraw, FindWithdraw, GetStatus, Finish,
      Without, AmountLocked, Locksroot, RemoveFirst, GetLock, CanSendTransfer, CanSendUnlock;
  }

  /** The withdraw that we announce with a step, if we do. */
  function Announces(ch: Channel, s: Step): Option<Withdraw>
  {
    match s
    case DoWithdraw(total, block) =>
      if CheckTotalWithdraw(ch, total, false).Accept? && PriorToClosed(ch)
      then Some(Withdraw(total, SafeInitialExpiration(block, ch.revealTimeout), NextNonce(ch.our))) else None
    case DoCoopSettle(block) =>
      var total := MaxWithdraw(ch.our, ch.partner);
      if CheckCoopSettle(ch, total).Accept? && PriorToClosed(ch)
      then Some(Withdraw(total, SafeInitialExpiration(block, ch.revealTimeout), NextNonce(ch.our))) else None
    case GotWithdrawRequest(m, _) =>
      if CheckWithdrawRequest(ch, m).Accept? && m.coopSettle && ch.our.coopSettle.None?
         && CheckRequestUnderCoopSettle(RecordRequest(ch, m), m).Accept? && PriorToClosed(ch)
      then Some(Withdraw(MaxWithdraw(ch.our, ch.partner), m.expiration, NextNonce(ch.our))) else None
    case _ => None
  }

  lemma AnnouncedPut(ch: Channel, s: Step)
    requires s.DoWithdraw? || s.DoCoopSettle? || s.GotWithdrawRequest?
    requires Allowed(ch, s) && Apply(ch, s).channel.Some?
    ensures var w, pending := Announces(ch, s), ch.our.withdrawsPending;
      Apply(ch, s).channel.value.our.withdrawsPending == if w.Some? then PutWithdraw(pending, w.value) else pending
  {
    hide CheckTotalWithdraw, CheckCoopSettle, CheckWithdrawRequest, PutWithdraw, RequestMatchesCoopSettle;
  }

  /** Exactly when a step keeps our withdraws in order: if what it announces, if anything, fits in. */
  lemma StepOrderedExactly(ch: Channel, s: Step)
    requires Ordered(ch.our.withdrawsPending) && Allowed(ch, s) && Apply(ch, s).channel.Some?
    ensures Ordered(Apply(ch, s).channel.value.our.withdrawsPending)
       <==> (Announces(ch, s).Some? ==> FitsIn(ch.our.withdrawsPending, Announces(ch, s).value))
  {
    if s.DoWithdraw? || s.DoCoopSettle? || s.GotWithdrawRequest? {
      AnnouncedPut(ch, s);
      hide Apply, Allowed, Announces, Ordered, FitsIn;
      if Announces(ch, s).Some? { PutOrderedExactly(ch.our.withdrawsPending, Announces(ch, s).value); }
    } else if s.NewBlock? {
      OrderedExpire(ch.our, ch.our.withdrawsPending, s.block);
      ExpireWithdrawsFrame(ch.our, ch.our.withdrawsPending, s.block);
      hide Ordered, ExpireWithdraws;
    } else if s.Withdrawn? {
      OrderedDrop(ch.our.withdrawsPending, s.amount);
      hide Ordered;
    } else {
      hide Allowed, Ordered, Apply;
      OtherStepsKeepWithdraws(ch, s);
    }
  }

  predicate OrderlyRun(ch: Channel, now: nat, steps: seq<Step>)
    requires IsRun(ch, steps)
    decreases steps
  {
    steps == [] ||
    (Orderly(ch, now, steps[0])
     && var next := Apply(ch, steps[0]).channel;
        next.Some? ==> OrderlyRun(next.value, Clock(now, steps[0]), steps[1..]))
  }

  /** In every state of an orderly run, the early exit misses no expired withdraw. */
  lemma {:induction false} RunInOrder(ch: Channel, now: nat, steps: seq<Step>, block: nat)
    requires InOrder(ch, now) && IsRun(ch, steps) && OrderlyRun(ch, now, steps) && After(ch, steps).Some?
    ensures var ch' := After(ch, steps).value;
      Ordered(ch'.our.withdrawsPending)
      && ExpireWithdraws(ch'.our, ch'.our.withdrawsPending, block) == ExpireAll(ch'.our, ch'.our.withdrawsPending, block)
    decreases steps
  {
    hide Apply, Allowed, Orderly, ExpireWithdraws, ExpireAll;
    if steps == [] {
      OrderedExpiredFirst(ch.our.withdrawsPending, block);
      EarlyExit(ch.our, ch.our.withdrawsPending, block);
    } else {
      StepInOrder(ch, now, steps[0]);
      RunInOrder(Apply(ch, steps[0]).channel.value, Clock(now, steps[0]), steps[1..], block);
    }
  }

  /**
   Lowering the reveal timeout between two withdraws lets the later one expire first, and then there
   is a block at which the loop misses it.
   */
  lemma LoweredTimeoutBreaksOrder(ch: Channel, block: nat)
    requires GetStatus(ch) == Opened && ch.revealTimeout == 50 && ch.settleTimeout >= 100
    requires ch.our.withdrawsPending == [] && ch.our.onchainTotalWithdraw == 0 && Balance(ch.our, ch.partner) >= 2
    requires TotalWithdraw(ch.partner) < 1000
    ensures var ch1 := ActionWithdraw(ch, 1, block).channel;
      var ch2 := SetRevealTimeout(ch1, 7).channel;
      var our := ActionWithdraw(ch2, 2, block + 1).channel.our;
      |our.withdrawsPending| == 2 && !Ordered(our.withdrawsPending)
      && ExpireWithdraws(our, our.withdrawsPending, block + 30) != ExpireAll(our, our.withdrawsPending, block + 30)
  {
    hide ExpireWithdraws, ExpireAll;
    var ch1 := ActionWithdraw(ch, 1, block).channel;
    var first := Withdraw(1, SafeInitialExpiration(block, 50), NextNonce(ch.our));
    assert ch1.our.withdrawsPending == [first];
    var ch2 := SetRevealTimeout(ch1, 7).channel;
    var our := ActionWithdraw(ch2, 2, block + 1).channel.our;
    var second := Withdraw(2, SafeInitialExpiration(block + 1, 7), NextNonce(ch1.our));
    assert MaxTotal(ch2.our.withdrawsPending) == 1;
    assert PutWithdraw([first][1..], second) == [second];
    assert our.withdrawsPending == [first, second];
    assert our.withdrawsPending[0].expiration > our.withdrawsPending[1].expiration;
    assert WithdrawIsExpired(our.withdrawsPending[1], block + 30);
    assert !WithdrawIsExpired(our.withdrawsPending[0], block + 30);
    EarlyExit(our, our.withdrawsPending, block + 30);
  }
}
