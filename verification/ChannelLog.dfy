/**
 The write-ahead log over the channel's own transition. Which steps of a channel may be applied
 twice, as recovery does with the last change of a snapshot: all that a log can hold, except the
 start of a cooperative settlement in which this node has nothing to withdraw.
 */
module ChannelLog {
  import opened LockCodec
  import opened LockMaps
  import opened ChannelState
  import opened ChannelValidation
  import opened ChannelTransitions
  import opened ChannelRuns
  import opened LockAccounting
  import opened AccountedRuns
  import opened Nonces
  import Solvency
  import opened WithdrawOrder
  import opened StateLog
  import LogRuns

  // ---------- the keys of the withdraw dictionaries ----------

  ghost predicate KeysUnique(ch: Channel)
  {
    UniqueTotals(ch.our.withdrawsPending) && UniqueTotals(ch.partner.withdrawsPending)
  }

  lemma UniquePut(ws: seq<Withdraw>, w: Withdraw)
    requires UniqueTotals(ws)
    ensures UniqueTotals(PutWithdraw(ws, w))
  {
    var i := PutShape(ws, w);
  }

  lemma {:induction false} DropAbsent(ws: seq<Withdraw>, total: int)
    requires forall w :: w in ws ==> w.total != total
    ensures DropWithdraw(ws, total) == ws
  {
    if ws != [] {
      assert ws[0] in ws && ws == [ws[0]] + ws[1..];
      DropAbsent(ws[1..], total);
    }
  }

  /** Deleting a key deletes every entry for it. */
  lemma UniqueDrop(ws: seq<Withdraw>, total: int)
    requires UniqueTotals(ws)
    ensures UniqueTotals(DropWithdraw(ws, total)) && DropWithdraw(DropWithdraw(ws, total), total) == DropWithdraw(ws, total)
  {
    var i := DropShape(ws, total);
    var r := DropWithdraw(ws, total);
    hide DropWithdraw;
    forall w | w in r ensures w.total != total {
      var k :| 0 <= k < |r| && r[k] == w;
      assert w == if i == |ws| || k < i then ws[k] else ws[k + 1];
    }
    DropAbsent(r, total);
  }

  lemma {:induction false} ExpireUnique(e: End, ws: seq<Withdraw>, block: nat)
    requires UniqueTotals(e.withdrawsPending)
    ensures UniqueTotals(ExpireWithdraws(e, ws, block).end.withdrawsPending)
    decreases ws
  {
    hide UniqueTotals, DropWithdraw;
    if ws != [] && WithdrawIsExpired(ws[0], block) {
      UniqueDrop(e.withdrawsPending, ws[0].total);
      ExpireUnique(ExpireOne(e, ws[0]), ws[1..], block);
    }
  }

  lemma WithdrawStepUnique(ch: Channel, s: Step)
    requires s.DoWithdraw? || s.DoCoopSettle? || s.GotWithdrawRequest? || s.GotWithdrawExpired? || s.Withdrawn?
    requires KeysUnique(ch) && Allowed(ch, s)
    ensures KeysUnique(Apply(ch, s).channel.value)
  {
    hide CheckTotalWithdraw, CheckCoopSettle, CheckWithdrawRequest, CheckWithdrawExpired, CheckRequestUnderCoopSettle,
      MaxWithdraw, PutWithdraw, DropWithdraw, FindWithdraw, UniqueTotals, GetStatus;
    forall ws: seq<Withdraw>, w: Withdraw | UniqueTotals(ws) ensures UniqueTotals(PutWithdraw(ws, w)) {
      UniquePut(ws, w);
    }
    forall ws: seq<Withdraw>, total | UniqueTotals(ws) ensures UniqueTotals(DropWithdraw(ws, total)) {
      UniqueDrop(ws, total);
    }
  }

  lemma QuietStepUnique(ch: Channel, s: Step)
    requires !(s.DoWithdraw? || s.DoCoopSettle? || s.GotWithdrawRequest? || s.GotWithdrawExpired? || s.Withdrawn? || s.NewBlock?)
    requires Allowed(ch, s) && Apply(ch, s).channel.Some?
    ensures var ch' := Apply(ch, s).channel.value;
      ch'.our.withdrawsPending == ch.our.withdrawsPending && ch'.partner.withdrawsPending == ch.partner.withdrawsPending
  {
    hide CheckTransfer, CheckRefund, CheckUnlock, CheckLockExpired, CheckWithdrawConfirmation, NoLocksRoot, FindWithdraw,
      GetStatus, Finish, Without, AmountLocked, Locksroot, RemoveFirst, GetLock, CanSendTransfer, CanSendUnlock;
  }

  lemma StepUnique(ch: Channel, s: Step)
    requires KeysUnique(ch) && Allowed(ch, s) && Apply(ch, s).channel.Some?
    ensures KeysUnique(Apply(ch, s).channel.value)
  {
    hide UniqueTotals;
    if s.NewBlock? {
      ExpireUnique(ch.our, ch.our.withdrawsPending, s.block);
      hide ExpireWithdraws, GetStatus;
    } else if s.DoWithdraw? || s.DoCoopSettle? || s.GotWithdrawRequest? || s.GotWithdrawExpired? || s.Withdrawn? {
      hide Apply, Allowed;
      WithdrawStepUnique(ch, s);
    } else {
      hide Apply, Allowed;
      QuietStepUnique(ch, s);
    }
  }

  // ---------- taking a step twice ----------

  /** The step starts a cooperative settlement in which we have nothing to withdraw. */
  predicate SettlesNothing(ch: Channel, s: Step)
  {
    s.DoCoopSettle? && MaxWithdraw(ch.our, ch.partner) <= 0 && CheckCoopSettle(ch, MaxWithdraw(ch.our, ch.partner)).Accept?
  }

  /** Taking the step again, if it can be taken again, changes nothing. */
  ghost predicate Twice(ch: Channel, s: Step)
    requires Allowed(ch, s) && Apply(ch, s).channel.Some?
  {
    var ch' := Apply(ch, s).channel.value;
    Allowed(ch', s) ==> Apply(ch', s).channel == Some(ch')
  }

  /** A message that was accepted is refused when it comes again. */
  lemma MessageTwice(ch: Channel, s: Step)
    requires MessageNonce(s).Some? && Allowed(ch, s)
    ensures Apply(ch, s).channel.Some? && Twice(ch, s) && Allowed(Apply(ch, s).channel.value, s)
  {
    MessageKept(ch, s);
    var ch' := Apply(ch, s).channel.value;
    if Accepted(ch, s) {
      AcceptedIsNext(ch, s);
      PartnerNonceStep(ch, s);
      if Accepted(ch', s) { AcceptedIsNext(ch', s); }
    } else {
      RefusedUnchanged(ch, s);
    }
    hide Apply, Allowed, Accepted;
    RefusedUnchanged(ch', s);
  }

  lemma MessageKept(ch: Channel, s: Step)
    requires MessageNonce(s).Some? && Allowed(ch, s)
    ensures Apply(ch, s).channel.Some?
  {
    hide CheckTransfer, CheckRefund, CheckUnlock, CheckLockExpired, CheckWithdrawRequest, CheckWithdrawConfirmation,
      CheckWithdrawExpired, RequestMatchesCoopSettle;
  }

  lemma {:induction false} ExpireDrops(e: End, ws: seq<Withdraw>, block: nat)
    requires UniqueTotals(ws) && e.withdrawsPending == ws
    ensures var r := ExpireWithdraws(e, ws, block).end.withdrawsPending;
      r == [] || !WithdrawIsExpired(r[0], block)
    decreases ws
  {
    if ws != [] && WithdrawIsExpired(ws[0], block) {
      var i := DropShape(ws, ws[0].total);
      assert DropWithdraw(ws, ws[0].total) == ws[1..];
      ExpireDrops(ExpireOne(e, ws[0]), ws[1..], block);
    }
  }

  lemma BlockTwice(ch: Channel, block: nat)
    requires UniqueTotals(ch.our.withdrawsPending) && CloseRecorded(ch)
    ensures var ch' := HandleBlock(ch, block).channel;
      CloseRecorded(ch') && HandleBlock(ch', block).channel == ch'
  {
    ExpireDrops(ch.our, ch.our.withdrawsPending, block);
    hide UniqueTotals;
  }

  lemma WithdrawTwice(ch: Channel, total: int, block: nat)
    ensures var ch' := ActionWithdraw(ch, total, block).channel; ActionWithdraw(ch', total, block).channel == ch'
  {
    hide Balance, GetStatus, Following;
    var w := Withdraw(total, SafeInitialExpiration(block, ch.revealTimeout), NextNonce(ch.our));
    var i := PutShape(ch.our.withdrawsPending, w);
    var ws := PutWithdraw(ch.our.withdrawsPending, w);
    assert ws[i] == w && w in ws && w.total <= MaxTotal(ws);
    hide PutWithdraw, MaxTotal;
  }

  /** What starting a settlement changes. */
  lemma SettlementStarts(ch: Channel, block: nat)
    requires CheckCoopSettle(ch, MaxWithdraw(ch.our, ch.partner)).Accept?
    ensures var ch' := ActionCoopSettle(ch, block).channel; var total := MaxWithdraw(ch.our, ch.partner);
      ch'.our.nonce == NextNonce(ch.our) && ch' == ch.(our := ch'.our)
      && ch'.our == ch.our.(nonce := ch'.our.nonce, coopSettle := ch'.our.coopSettle, withdrawsPending := ch'.our.withdrawsPending)
      && MaxTotal(ch'.our.withdrawsPending) == total && MaxWithdraw(ch'.our, ch'.partner) == total
      && TotalWithdraw(ch'.our) == total && Balance(ch'.our, ch'.partner) == 0
  {
    hide MaxTotal, PutWithdraw, SafeInitialExpiration;
    var total := MaxWithdraw(ch.our, ch.partner);
    assert total >= TotalWithdraw(ch.our) && PriorToClosed(ch);
    Solvency.MaxTotalPut(ch.our.withdrawsPending, Withdraw(total, SafeInitialExpiration(block, ch.revealTimeout), NextNonce(ch.our)));
    hide CheckCoopSettle;
  }

  /** A settlement is started once, unless nothing is withdrawn with it. */
  lemma CoopSettleTwice(ch: Channel, block: nat)
    ensures var ch' := ActionCoopSettle(ch, block).channel;
      ActionCoopSettle(ch', block).channel == ch' <==> !SettlesNothing(ch, DoCoopSettle(block))
  {
    hide PutWithdraw, MaxTotal;
    if CheckCoopSettle(ch, MaxWithdraw(ch.our, ch.partner)).Accept? {
      var ch' := ActionCoopSettle(ch, block).channel;
      SettlementStarts(ch, block);
      assert CheckCoopSettle(ch', MaxWithdraw(ch'.our, ch'.partner)).Accept? <==> MaxWithdraw(ch.our, ch.partner) <= 0 by {
        hide ActionCoopSettle, MaxWithdraw, Balance, MaxTotal, TotalWithdraw;
      }
      hide CheckCoopSettle, MaxWithdraw, MaxTotal, PutWithdraw, Balance, TotalWithdraw;
      if CheckCoopSettle(ch', MaxWithdraw(ch'.our, ch'.partner)).Accept? {
        SettlementStarts(ch', block);
        hide ActionCoopSettle;
      }
    }
  }

  /** Every other step of the channel that a caller cannot forbid. */
  lemma ContractTwice(ch: Channel, s: Step)
    requires s.DoClose? || s.WasClosed? || s.WasUpdated? || s.WasSettled? || s.WasUnlocked? || s.Deposited?
      || s.DoSetRevealTimeout?
    requires Allowed(ch, s) && Apply(ch, s).channel.Some?
    ensures Twice(ch, s) && Allowed(Apply(ch, s).channel.value, s)
  {
    hide NoLocksRoot, RequestMatchesCoopSettle, CanSendTransfer, CanSendUnlock;
  }

  lemma OnchainTwice(ch: Channel, participant: Address, total: nat)
    requires KeysUnique(ch)
    ensures var ch' := ChannelWithdraw(ch, participant, total); ChannelWithdraw(ch', participant, total) == ch'
  {
    UniqueDrop(ch.our.withdrawsPending, total);
    UniqueDrop(ch.partner.withdrawsPending, total);
    hide DropWithdraw, UniqueTotals;
  }

  // ---------- the log ----------

  /** The state changes for which the channel has a handler of its own. */
  predicate Dispatched(s: Step)
  {
    s.DoClose? || s.DoCoopSettle? || s.DoWithdraw? || s.DoSetRevealTimeout? || s.GotWithdrawRequest?
    || s.GotWithdrawConfirmation? || s.GotWithdrawExpired? || s.NewBlock? || s.WasClosed? || s.WasUpdated?
    || s.WasSettled? || s.Deposited? || s.Withdrawn? || s.WasUnlocked?
  }

  /** Taking a dispatched step again changes nothing, exactly if it does not settle nothing. */
  lemma DispatchedTwice(ch: Channel, s: Step)
    requires Dispatched(s) && KeysUnique(ch) && Allowed(ch, s) && Apply(ch, s).channel.Some?
    ensures Allowed(Apply(ch, s).channel.value, s)
    ensures Twice(ch, s) <==> !SettlesNothing(ch, s)
  {
    hide UniqueTotals, SettlesNothing, HandleBlock, ActionWithdraw, ActionCoopSettle, ChannelWithdraw, CloseRecorded,
      ReceiveWithdrawRequest, ReceiveWithdrawConfirmation, ReceiveWithdrawExpired;
    NotSettling(ch, s);
    if MessageNonce(s).Some? {
      hide Apply, Allowed, Twice;
      MessageTwice(ch, s);
    } else if s.NewBlock? {
      BlockTwice(ch, s.block);
    } else if s.DoWithdraw? {
      WithdrawTwice(ch, s.total, s.block);
    } else if s.DoCoopSettle? {
      CoopSettleTwice(ch, s.block);
    } else if s.Withdrawn? {
      OnchainTwice(ch, s.participant, s.amount);
    } else {
      hide Apply, Allowed, Twice;
      ContractTwice(ch, s);
    }
  }

  lemma NotSettling(ch: Channel, s: Step)
    ensures SettlesNothing(ch, s) ==> s.DoCoopSettle?
  {
  }

  /** Sends cannot be repeated at all, and the other steps on locks change nothing when repeated. */
  lemma LockStepTwice(ch: Channel, s: Step)
    requires TouchesLocks(s) && BothAccounted(ch) && Allowed(ch, s)
    ensures Apply(ch, s).channel.Some? && Twice(ch, s)
    ensures s.DoSendTransfer? || s.DoSendUnlock? ==> !Allowed(Apply(ch, s).channel.value, s)
  {
    if MessageNonce(s).Some? {
      hide Apply, Allowed, Twice;
      MessageTwice(ch, s);
    } else if s.SecretRevealed? || s.SecretRegistered? {
      SecretTwice(ch, s);
    } else {
      SendTwice(ch, s);
    }
  }

  lemma SecretTwice(ch: Channel, s: Step)
    requires s.SecretRevealed? || s.SecretRegistered?
    ensures Twice(ch, s)
  {
  }

  lemma SendTwice(ch: Channel, s: Step)
    requires s.DoSendTransfer? || s.DoSendUnlock? || s.DoSendLockExpired?
    requires BothAccounted(ch) && Allowed(ch, s)
    ensures Twice(ch, s) && (s.DoSendTransfer? || s.DoSendUnlock? ==> !Allowed(Apply(ch, s).channel.value, s))
  {
    if s.DoSendUnlock? {
      PendingEncoding(ch.keccak, ch.our, s.secrethash);
    } else if s.DoSendLockExpired? && Encode(s.lock) in ch.our.pendingLocks {
      RemoveFirstDistinct(ch.our.pendingLocks, Encode(s.lock));
    }
    hide AmountLocked, Encode, RemoveFirst, Locksroot, Distributable, Accounted;
  }

  /**
   `channel.state_transition` as the log sees it. State changes without a handler leave the channel
   alone, and a change whose handler raises never gets into the log. The object is updated in place.
   */
  function Handle(state: Option<Channel>, s: Step): Iteration<Option<Channel>, Event>
  {
    if state.None? || !Dispatched(s) || !Allowed(state.value, s) then Iteration(state, [], true, state)
    else var r := Apply(state.value, s); Iteration(r.channel, r.events, true, r.channel)
  }

  ghost predicate Reachable(state: Option<Channel>)
  {
    state.Some? ==> KeysUnique(state.value)
  }

  lemma HandleReachable(state: Option<Channel>, s: Step)
    requires Reachable(state)
    ensures Reachable(Handle(state, s).state)
  {
    hide KeysUnique, Apply, Allowed;
    if state.Some? && Dispatched(s) && Allowed(state.value, s) && Apply(state.value, s).channel.Some? {
      StepUnique(state.value, s);
    }
  }

  lemma {:induction false} FoldReachable(state: Option<Channel>, rows: seq<ChangeRow<Step>>)
    requires Reachable(state)
    ensures Reachable(Fold(Handle, state, rows))
    decreases rows
  {
    hide Handle, Reachable;
    if rows != [] {
      HandleReachable(state, rows[0].change);
      FoldReachable(Handle(state, rows[0].change).state, rows[1..]);
    }
  }

  /** A logged change starts a settlement of nothing. */
  ghost predicate LogsNothing(state: Option<Channel>, s: Step)
  {
    state.Some? && Dispatched(s) && Allowed(state.value, s) && SettlesNothing(state.value, s)
  }

  /** Handling a change again changes nothing, exactly if it does not settle nothing. */
  lemma HandleTwice(state: Option<Channel>, s: Step)
    requires Reachable(state)
    ensures Handle(Handle(state, s).state, s).state == Handle(state, s).state <==> !LogsNothing(state, s)
  {
    hide KeysUnique, Apply, Allowed, SettlesNothing;
    if state.Some? && Dispatched(s) && Allowed(state.value, s) {
      if Apply(state.value, s).channel.Some? {
        DispatchedTwice(state.value, s);
      } else {
        SettlementKept(state.value, s);
      }
    }
  }

  lemma SettlementKept(ch: Channel, s: Step)
    requires Allowed(ch, s) && Apply(ch, s).channel.None?
    ensures !SettlesNothing(ch, s)
  {
    hide CheckTransfer, CheckRefund, CheckUnlock, CheckLockExpired, NoLocksRoot, GetStatus, CanSendTransfer, CanSendUnlock,
      RequestMatchesCoopSettle, CheckCoopSettle, MaxWithdraw;
  }

  /**
   Which snapshots of a channel's log can be recovered from: all but those taken right after the
   start of a settlement of nothing. With `RestoreExact`, this is exactly when recovery is correct.
   */
  lemma SettledExactly(initial: Option<Channel>, changes: seq<ChangeRow<Step>>, row: SnapshotRow<Option<Channel>>, i: nat)
    requires Reachable(initial) && Ascending(changes) && Faithful(Handle, initial, changes, row)
    requires i < |changes| && row.change == Some(changes[i].id)
    ensures StateLog.Settled(Handle, changes, row) <==> !LogsNothing(Fold(Handle, initial, changes[..i]), changes[i].change)
  {
    hide Handle, LogsNothing, Reachable;
    var before := Fold(Handle, initial, changes[..i]);
    FoldReachable(initial, changes[..i]);
    BetweenLast(changes, i);
    assert changes[..i + 1] == changes[..i] + [changes[i]];
    FoldConcat(Handle, initial, changes[..i], [changes[i]]);
    assert [changes[i]][1..] == [];
    assert row.state == Handle(before, changes[i].change).state;
    HandleTwice(before, changes[i].change);
    forall j | 0 <= j < |changes| && row.change == Some(changes[j].id) ensures j == i {
      assert changes[j].id == changes[i].id;
    }
  }

  /** Every batch of a channel's log publishes its fold. */
  lemma HandlesInPlace(state: Option<Channel>, batch: seq<Step>)
    ensures LogRuns.BatchInPlace(Handle, state, batch)
  {
    hide Apply, Allowed;
  }

  /** The newest snapshot was not taken right after the start of a settlement of nothing. */
  ghost predicate CrashSafe(initial: Option<Channel>, n: LogRuns.Node<Option<Channel>, Step, Event>)
  {
    n.tables.snapshots != [] ==>
      forall i :: 0 <= i < |n.tables.changes| && LogRuns.Newest(n.tables).change == Some(n.tables.changes[i].id) ==>
        !LogsNothing(Fold(Handle, initial, n.tables.changes[..i]), n.tables.changes[i].change)
  }

  lemma SafeIsCareful(
    initial: Option<Channel>, n: LogRuns.Node<Option<Channel>, Step, Event>, a: LogRuns.Action<Option<Channel>, Step>)
    requires Reachable(initial) && LogRuns.Sound(Handle, initial, n)
    requires a.Crash? ==> CrashSafe(initial, n)
    ensures LogRuns.Careful(Handle, n, a)
  {
    hide Handle, Reachable, LogsNothing, Fold, Between;
    if a.Commit? {
      HandlesInPlace(n.state, a.batch);
    } else if a.Crash? {
      var row := LogRuns.Newest(n.tables);
      assert row in n.tables.snapshots && Faithful(Handle, initial, n.tables.changes, row);
      if row.change.Some? {
        var i :| 0 <= i < |n.tables.changes| && n.tables.changes[i].id == row.change.value;
        SettledExactly(initial, n.tables.changes, row, i);
      }
    }
  }

  ghost predicate CrashesSafe(
    initial: Option<Channel>, n: LogRuns.Node<Option<Channel>, Step, Event>,
    actions: seq<LogRuns.Action<Option<Channel>, Step>>)
    requires LogRuns.IsHistory(Handle, n, actions)
    decreases actions
  {
    actions == [] ||
    ((actions[0].Crash? ==> CrashSafe(initial, n))
     && CrashesSafe(initial, LogRuns.Act(Handle, n, actions[0]), actions[1..]))
  }

  /**
   The log of a channel over any number of batches, failures, snapshots and restarts: what is
   published is the fold of everything that was ever logged, as long as no restart relies on a
   snapshot taken right after the start of a settlement of nothing.
   */
  lemma {:induction false} ChannelHistorySound(
    initial: Option<Channel>, n: LogRuns.Node<Option<Channel>, Step, Event>,
    actions: seq<LogRuns.Action<Option<Channel>, Step>>)
    requires Reachable(initial) && LogRuns.Sound(Handle, initial, n)
    requires LogRuns.IsHistory(Handle, n, actions) && CrashesSafe(initial, n, actions)
    ensures LogRuns.Sound(Handle, initial, LogRuns.After(Handle, n, actions))
    decreases actions
  {
    hide Reachable, LogRuns.Sound, CrashSafe, LogRuns.Careful, LogRuns.Act, LogRuns.Possible;
    if actions != [] {
      SafeIsCareful(initial, n, actions[0]);
      LogRuns.ActionSound(Handle, initial, n, actions[0]);
      ChannelHistorySound(initial, LogRuns.Act(Handle, n, actions[0]), actions[1..]);
    }
  }

  // ---------- a wrong recovery ----------

  /** A log with the start of a settlement and the snapshot taken after it. */
  function SettlementLog(ch: Channel, block: nat): Tables<Option<Channel>, Step, Event>
  {
    var after := ActionCoopSettle(ch, block).channel;
    Tables([ChangeRow(1, DoCoopSettle(block))], [],
           [SnapshotRow(1, None, 0, Some(ch)), SnapshotRow(2, Some(1), 1, Some(after))])
  }

  lemma FreshSettlement(ch: Channel, block: nat)
    requires FreshChannel(ch) && ch.our.contractBalance == 0
    ensures SettlesNothing(ch, DoCoopSettle(block)) && KeysUnique(ch)
    ensures ActionCoopSettle(ch, block).channel.our.nonce == 1
    ensures ActionCoopSettle(ActionCoopSettle(ch, block).channel, block).channel.our.nonce == 2
  {
    var after := ActionCoopSettle(ch, block).channel;
    assert after.our.withdrawsPending == [Withdraw(0, SafeInitialExpiration(block, ch.revealTimeout), 1)];
  }

  /** On every fresh channel without a deposit of ours: the log says nonce 1, recovery says nonce 2. */
  lemma SettlementRecoversWrongly(ch: Channel, block: nat)
    requires FreshChannel(ch) && ch.our.contractBalance == 0
    ensures Recorded(Handle, Some(ch), SettlementLog(ch, block))
    ensures var right, wrong := Replayed(Handle, Some(ch), SettlementLog(ch, block), 1), Restore(Handle, SettlementLog(ch, block), 1);
      right.Some? && right.value.our.nonce == 1 && wrong.Some? && wrong.value.Some? && wrong.value.value.our.nonce == 2
  {
    FreshSettlement(ch, block);
    var t, change := SettlementLog(ch, block), DoCoopSettle(block);
    var ch1 := ActionCoopSettle(ch, block).channel;
    assert Handle(Some(ch), change).state == Some(ch1);
    assert Handle(Some(ch1), change).state == Some(ActionCoopSettle(ch1, block).channel);
    hide Handle, ActionCoopSettle, FreshChannel, SettlesNothing, KeysUnique;
    OneChange(t.changes, Some(ch), Some(ch1));
    assert t.changes[0].id == 1;
    assert SnapshotBefore(t.snapshots, 1) == Some(t.snapshots[1]);
  }

  lemma OneChange(rows: seq<ChangeRow<Step>>, a: Option<Channel>, b: Option<Channel>)
    requires |rows| == 1 && rows[0].id == 1
    ensures Between(rows, LOW, 1) == rows == Between(rows, 1, 1) && Between(rows, LOW, LOW) == []
    ensures Fold(Handle, a, rows) == Handle(a, rows[0].change).state && Fold(Handle, b, rows) == Handle(b, rows[0].change).state
    ensures Fold(Handle, a, []) == a
  {
    hide Handle;
    assert rows[1..] == [] && [rows[0]] + [] == rows;
  }
}
