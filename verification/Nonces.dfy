/**
 Sequential nonces and replay safety. Every accepted partner message carries the next nonce, a
 refused one leaves the channel as it was, and a message that was accepted once changes nothing
 when it is delivered again at any later time.
 */
module Nonces {
  import opened LockCodec
  import opened LockMaps
  import opened ChannelState
  import opened ChannelValidation
  import opened ChannelTransitions
  import opened ChannelRuns

  // ---------- messages from the partner ----------

  /** The nonce of the message a step delivers. */
  function MessageNonce(s: Step): Option<nat>
  {
    match s
    case GotTransfer(m) => Some(m.proof.nonce)
    case GotRefund(m, _) => Some(m.proof.nonce)
    case GotUnlock(m) => Some(m.proof.nonce)
    case GotLockExpired(m, _) => Some(m.proof.nonce)
    case GotWithdrawRequest(m, _) => Some(m.nonce)
    case GotWithdrawConfirmation(m, _) => Some(m.nonce)
    case GotWithdrawExpired(m, _) => Some(m.nonce)
    case _ => None
  }

  /** Whether the validity check of the message passes. */
  predicate Accepted(ch: Channel, s: Step)
  {
    match s
    case GotTransfer(m) => CheckTransfer(ch, m.proof, m.lock).Accept?
    case GotRefund(m, original) => CheckRefund(ch, m, original).Accept?
    case GotUnlock(m) => CheckUnlock(ch, m).Accept?
    case GotLockExpired(m, block) => CheckLockExpired(ch, m, block).Accept?
    case GotWithdrawRequest(m, _) => CheckWithdrawRequest(ch, m).Accept?
    case GotWithdrawConfirmation(m, _) => CheckWithdrawConfirmation(ch, m).Accept?
    case GotWithdrawExpired(m, block) => CheckWithdrawExpired(ch, m, block).Accept?
    case _ => false
  }

  lemma AcceptedIsNext(ch: Channel, s: Step)
    requires Accepted(ch, s)
    ensures MessageNonce(s) == Some(NextNonce(ch.partner))
  {
    hide AmountLocked, CurrentLocked, Encode, GetStatus, Locksroot, RemoveFirst, GetLock, IsLockExpired,
      IsLockPending, Distributable, LocksWith, LocksWithout, RefundMatches, Balance, TotalWithdraw, FindWithdraw;
  }

  lemma EnvelopeNonce(ch: Channel, s: Step)
    requires s.GotTransfer? || s.GotRefund? || s.GotUnlock? || s.GotLockExpired?
    ensures Apply(ch, s).channel.Some?
    ensures Apply(ch, s).channel.value.partner.nonce
         == if Accepted(ch, s) then MessageNonce(s).value else ch.partner.nonce
  {
    hide CheckTransfer, CheckRefund, CheckUnlock, CheckLockExpired, Without;
  }

  lemma WithdrawNonce(ch: Channel, s: Step)
    requires s.GotWithdrawRequest? || s.GotWithdrawConfirmation? || s.GotWithdrawExpired?
    requires Allowed(ch, s)
    ensures Apply(ch, s).channel.Some?
    ensures Apply(ch, s).channel.value.partner.nonce
         == if Accepted(ch, s) then MessageNonce(s).value else ch.partner.nonce
  {
    hide CheckWithdrawRequest, CheckWithdrawConfirmation, CheckWithdrawExpired, CheckRequestUnderCoopSettle,
      MaxWithdraw, PutWithdraw, DropWithdraw, FindWithdraw, PriorToClosed;
  }

  lemma OtherNonce(ch: Channel, s: Step)
    requires MessageNonce(s).None? && Allowed(ch, s) && Apply(ch, s).channel.Some?
    ensures Apply(ch, s).channel.value.partner.nonce == ch.partner.nonce
  {
    hide CheckTotalWithdraw, CheckCoopSettle, ExpireWithdraws, Finish, GetStatus, NoLocksRoot, MaxWithdraw,
      PutWithdraw, DropWithdraw, Without, AmountLocked, Locksroot, RemoveFirst, GetLock, CanSendTransfer,
      CanSendUnlock, RequestMatchesCoopSettle;
  }

  /** The partner's nonce counts the accepted messages, and nothing else moves it. */
  lemma PartnerNonceStep(ch: Channel, s: Step)
    requires Allowed(ch, s) && Apply(ch, s).channel.Some?
    ensures Apply(ch, s).channel.value.partner.nonce
         == if Accepted(ch, s) then NextNonce(ch.partner) else ch.partner.nonce
  {
    if Accepted(ch, s) { AcceptedIsNext(ch, s); }
    hide Apply, Allowed;
    if s.GotTransfer? || s.GotRefund? || s.GotUnlock? || s.GotLockExpired? {
      EnvelopeNonce(ch, s);
    } else if s.GotWithdrawRequest? || s.GotWithdrawConfirmation? || s.GotWithdrawExpired? {
      WithdrawNonce(ch, s);
    } else {
      OtherNonce(ch, s);
    }
  }

  lemma RefusedUnchanged(ch: Channel, s: Step)
    requires MessageNonce(s).Some? && !Accepted(ch, s)
    ensures Allowed(ch, s) && Apply(ch, s).channel == Some(ch)
  {
    hide CheckTransfer, CheckRefund, CheckUnlock, CheckLockExpired, CheckWithdrawRequest,
      CheckWithdrawConfirmation, CheckWithdrawExpired, CheckRequestUnderCoopSettle;
  }

  /**
   A withdraw request is the one message whose refusal may leave traces: it is recorded before the
   cooperative-settle conditions are tested. It leaves the channel unchanged exactly when it was the
   validity check that refused.
   */
  lemma RefusedRequest(ch: Channel, m: WithdrawMsg, block: nat)
    requires RequestMatchesCoopSettle(ch, m)
    ensures ReceiveWithdrawRequest(ch, m, block).channel == ch <==> CheckWithdrawRequest(ch, m).Refuse?
  {
    if CheckWithdrawRequest(ch, m).Accept? { AcceptedIsNext(ch, GotWithdrawRequest(m, block)); }
    hide CheckWithdrawRequest, CheckRequestUnderCoopSettle, PutWithdraw;
  }

  /** The nonces of the partner messages a run accepts, in order. */
  function AcceptedNonces(ch: Channel, steps: seq<Step>): seq<nat>
    requires IsRun(ch, steps)
    decreases steps
  {
    if steps == [] then []
    else
      var next := Apply(ch, steps[0]).channel;
      (if Accepted(ch, steps[0]) then [MessageNonce(steps[0]).value] else [])
      + (if next.None? then [] else AcceptedNonces(next.value, steps[1..]))
  }

  /** n + 1, n + 2, ..., n + k. */
  function Following(n: nat, k: nat): (r: seq<nat>)
    ensures |r| == k && forall i :: 0 <= i < k ==> r[i] == n + 1 + i
    decreases k
  {
    if k == 0 then [] else [n + 1] + Following(n + 1, k - 1)
  }

  /** Along every run the accepted nonces are consecutive, and the partner's nonce is the last of them. */
  lemma {:induction false} AcceptedSequential(ch: Channel, steps: seq<Step>)
    requires IsRun(ch, steps)
    ensures AcceptedNonces(ch, steps) == Following(ch.partner.nonce, |AcceptedNonces(ch, steps)|)
    ensures After(ch, steps).Some? ==>
      After(ch, steps).value.partner.nonce == ch.partner.nonce + |AcceptedNonces(ch, steps)|
    decreases steps
  {
    hide Apply, Allowed, Accepted;
    if steps != [] {
      var next := Apply(ch, steps[0]).channel;
      if Accepted(ch, steps[0]) { AcceptedIsNext(ch, steps[0]); }
      if next.Some? {
        PartnerNonceStep(ch, steps[0]);
        AcceptedSequential(next.value, steps[1..]);
      }
    }
  }

  /** Whatever happens after a message was accepted, delivering its nonce again changes nothing. */
  lemma ReplayIgnored(ch: Channel, first: Step, later: seq<Step>, again: Step)
    requires Allowed(ch, first) && Accepted(ch, first) && Apply(ch, first).channel.Some?
    requires IsRun(Apply(ch, first).channel.value, later) && After(Apply(ch, first).channel.value, later).Some?
    requires MessageNonce(again) == MessageNonce(first)
    ensures var end := After(Apply(ch, first).channel.value, later).value;
      Allowed(end, again) && Apply(end, again).channel == Some(end)
  {
    hide Apply, Allowed, Accepted;
    var ch1 := Apply(ch, first).channel.value;
    var end := After(ch1, later).value;
    AcceptedIsNext(ch, first);
    PartnerNonceStep(ch, first);
    AcceptedSequential(ch1, later);
    if Accepted(end, again) { AcceptedIsNext(end, again); }
    RefusedUnchanged(end, again);
  }

  // ---------- messages to the partner ----------

  function SentNonce(e: Event): Option<nat>
  {
    match e
    case SendLockedTransfer(_, proof) => Some(proof.nonce)
    case SendUnlock(_, proof) => Some(proof.nonce)
    case SendLockExpired(_, proof) => Some(proof.nonce)
    case SendWithdrawRequest(_, nonce, _, _) => Some(nonce)
    case SendWithdrawConfirmation(_, nonce, _) => Some(nonce)
    case SendWithdrawExpired(_, nonce, _) => Some(nonce)
    case _ => None
  }

  function SentNonces(events: seq<Event>): seq<nat>
  {
    if events == [] then []
    else (if SentNonce(events[0]).Some? then [SentNonce(events[0]).value] else []) + SentNonces(events[1..])
  }

  /** The partner starts a cooperative settlement and the answering request is queued twice. */
  predicate DoublesRequest(ch: Channel, s: Step)
  {
    s.GotWithdrawRequest? && s.withdraw.coopSettle && ch.our.coopSettle.None?
    && CheckWithdrawRequest(ch, s.withdraw).Accept?
    && CheckRequestUnderCoopSettle(RecordRequest(ch, s.withdraw), s.withdraw).Accept?
    && PriorToClosed(ch)
  }

  lemma {:induction false} ExpirySendsSequential(e: End, ws: seq<Withdraw>, block: nat)
    ensures var r := ExpireWithdraws(e, ws, block);
      SentNonces(r.events) == Following(e.nonce, |r.events|) && r.end.nonce == e.nonce + |r.events|
    decreases ws
  {
    if ws != [] && WithdrawIsExpired(ws[0], block) {
      ExpirySendsSequential(ExpireOne(e, ws[0]), ws[1..], block);
      var r := ExpireWithdraws(e, ws, block);
      assert r.events[1..] == ExpireWithdraws(ExpireOne(e, ws[0]), ws[1..], block).events;
    }
  }

  lemma SentNoncesSingle(e: Event)
    ensures SentNonces([e]) == if SentNonce(e).Some? then [SentNonce(e).value] else []
  {
    assert [e][1..] == [];
  }

  lemma {:induction false} SentNoncesConcat(a: seq<Event>, b: seq<Event>)
    ensures SentNonces(a + b) == SentNonces(a) + SentNonces(b)
  {
    hide SentNonce;
    if a == [] {
      assert a + b == b;
    } else {
      SentNoncesConcat(a[1..], b);
      assert (a + b)[0] == a[0] && (a + b)[1..] == a[1..] + b;
      var head := if SentNonce(a[0]).Some? then [SentNonce(a[0]).value] else [];
      assert SentNonces(a + b) == head + SentNonces(a[1..] + b);
      assert SentNonces(a) == head + SentNonces(a[1..]);
    }
  }

  /** The messages of a step carry exactly the nonces by which our own nonce moves, each once. */
  ghost predicate SendsSequentially(e: End, e': End, events: seq<Event>)
  {
    e'.nonce >= e.nonce && SentNonces(events) == Following(e.nonce, e'.nonce - e.nonce)
  }

  lemma BlockSendsSequential(ch: Channel, block: nat)
    requires CloseRecorded(ch)
    ensures var r := HandleBlock(ch, block); SendsSequentially(ch.our, r.channel.our, r.events)
  {
    hide GetStatus, ExpireWithdraws;
    ExpirySendsSequential(ch.our, ch.our.withdrawsPending, block);
    SentNoncesConcat(ExpireWithdraws(ch.our, ch.our.withdrawsPending, block).events, [ContractSendSettle]);
    SentNoncesConcat([], [ContractSendSettle]);
    SentNoncesSingle(ContractSendSettle);
  }

  lemma CoopSettleSendsNothing(ch: Channel, block: nat)
    requires ch.our.coopSettle.Some?
    ensures var r := SendCoopSettle(ch, block);
      r.channel.our.nonce == ch.our.nonce && |r.events| <= 1 && SentNonces(r.events) == []
  {
    var coop := ch.our.coopSettle.value;
    SentNoncesSingle(ContractSendCoopSettle(coop.totalInitiator, coop.totalPartner, coop.expiration));
  }

  lemma JoinSendsSequential(ch: Channel, m: WithdrawMsg, block: nat)
    ensures var r := JoinCoopSettle(ch, m, block);
      if ch.our.coopSettle.None? && m.coopSettle && PriorToClosed(ch)
      then r.channel.our.nonce == ch.our.nonce + 1 && SentNonces(r.events) == [ch.our.nonce + 1, ch.our.nonce + 1]
      else r.channel.our.nonce == ch.our.nonce && SentNonces(r.events) == []
  {
    hide SendCoopSettle, PutWithdraw, MaxWithdraw;
    var r := JoinCoopSettle(ch, m, block);
    if ch.our.coopSettle.Some? {
      CoopSettleSendsNothing(
        ch.(our := ch.our.(coopSettle := Some(ch.our.coopSettle.value.(requestSigned := true)))), block);
    } else if m.coopSettle && PriorToClosed(ch) {
      var sent := SendWithdrawRequest(MaxWithdraw(ch.our, ch.partner), ch.our.nonce + 1, m.expiration, false);
      SentNoncesSingle(sent);
      SentNoncesConcat([sent], [sent]);
    }
  }

  lemma RequestSendsSequential(ch: Channel, m: WithdrawMsg, block: nat)
    requires RequestMatchesCoopSettle(ch, m)
    ensures var r := ReceiveWithdrawRequest(ch, m, block);
      SendsSequentially(ch.our, r.channel.our, r.events) <==> !DoublesRequest(ch, GotWithdrawRequest(m, block))
  {
    hide CheckWithdrawRequest, CheckRequestUnderCoopSettle, JoinCoopSettle, PutWithdraw, SentNonces;
    var r := ReceiveWithdrawRequest(ch, m, block);
    forall reason { SentNoncesSingle(Invalid(reason)); }
    if CheckWithdrawRequest(ch, m).Accept? {
      var recorded := RecordRequest(ch, m);
      if CheckRequestUnderCoopSettle(recorded, m).Accept? {
        JoinSendsSequential(recorded, m, block);
        var joined := JoinCoopSettle(recorded, m, block);
        SentNoncesConcat(joined.events, [SendWithdrawConfirmation(m.total, NextNonce(joined.channel.our), m.expiration)]);
        SentNoncesSingle(SendWithdrawConfirmation(m.total, NextNonce(joined.channel.our), m.expiration));
        assert SentNonces(r.events) == SentNonces(joined.events) + [joined.channel.our.nonce + 1];
        if DoublesRequest(ch, GotWithdrawRequest(m, block)) {
          assert |SentNonces(r.events)| == 3;
        }
      }
    }
  }

  lemma ConfirmationSendsSequential(ch: Channel, m: WithdrawMsg, block: nat)
    requires CheckWithdrawConfirmation(ch, m).Accept? ==> OneCoopSettle(ch)
    ensures var r := ReceiveWithdrawConfirmation(ch, m, block); SendsSequentially(ch.our, r.channel.our, r.events)
  {
    hide CheckWithdrawConfirmation, SendCoopSettle, SentNonces, Following;
    var check := CheckWithdrawConfirmation(ch, m);
    SentNoncesSingle(SendProcessed);
    NothingFollows(ch.our.nonce);
    if check.Refuse? {
      SentNoncesSingle(Invalid(check.reason));
    } else if ch.our.coopSettle.Some? {
      var coop := ch.our.coopSettle.value.(confirmationSigned := true);
      var sent := ch.(partner := ch.partner.(nonce := m.nonce), our := ch.our.(coopSettle := Some(coop)));
      CoopSettleSendsNothing(sent, block);
      SentNoncesConcat([SendProcessed], SendCoopSettle(sent, block).events);
    } else {
      var withdraw := ContractSendWithdraw(m.total, m.expiration);
      SentNoncesSingle(withdraw);
      SentNoncesConcat([SendProcessed], [withdraw]);
      assert [SendProcessed] + [withdraw] == [SendProcessed, withdraw];
    }
  }

  lemma NothingFollows(n: nat)
    ensures Following(n, 0) == []
  {
  }

  /** The steps with which we send something of our own accord. */
  predicate IsSend(s: Step)
  {
    s.DoSendTransfer? || s.DoSendUnlock? || s.DoSendLockExpired? || s.DoWithdraw? || s.DoCoopSettle?
  }

  lemma SendSendsSequential(ch: Channel, s: Step)
    requires IsSend(s) && Allowed(ch, s) && Apply(ch, s).channel.Some?
    ensures SendsSequentially(ch.our, Apply(ch, s).channel.value.our, Apply(ch, s).events)
  {
    hide CheckTransfer, CheckRefund, CheckUnlock, CheckLockExpired, CheckTotalWithdraw, CheckCoopSettle,
      CheckWithdrawExpired, Finish, GetStatus, NoLocksRoot, MaxWithdraw, PutWithdraw, DropWithdraw, FindWithdraw,
      Without, AmountLocked, Locksroot, RemoveFirst, GetLock, CanSendTransfer, CanSendUnlock, RequestMatchesCoopSettle,
      HandleBlock, ReceiveWithdrawRequest, ReceiveWithdrawConfirmation, CheckWithdrawRequest, CheckWithdrawConfirmation,
      CheckRequestUnderCoopSettle, TotalWithdraw;
    var events := Apply(ch, s).events;
    assert |events| <= 1;
    if events != [] {
      SentNoncesSingle(events[0]);
      assert events == [events[0]];
    }
  }

  lemma OtherSendsSequential(ch: Channel, s: Step)
    requires !(IsSend(s) || s.NewBlock? || s.GotWithdrawRequest? || s.GotWithdrawConfirmation?)
    requires Allowed(ch, s) && Apply(ch, s).channel.Some?
    ensures SendsSequentially(ch.our, Apply(ch, s).channel.value.our, Apply(ch, s).events)
  {
    hide CheckTransfer, CheckRefund, CheckUnlock, CheckLockExpired, CheckTotalWithdraw, CheckCoopSettle,
      CheckWithdrawExpired, Finish, GetStatus, NoLocksRoot, MaxWithdraw, PutWithdraw, DropWithdraw, FindWithdraw,
      Without, AmountLocked, Locksroot, RemoveFirst, GetLock, CanSendTransfer, CanSendUnlock, RequestMatchesCoopSettle,
      HandleBlock, ReceiveWithdrawRequest, ReceiveWithdrawConfirmation, CheckWithdrawRequest, CheckWithdrawConfirmation,
      CheckRequestUnderCoopSettle, TotalWithdraw;
    forall e { SentNoncesSingle(e); }
  }

  /** Every nonce of ours is spent on exactly one message, except when a request is doubled. */
  lemma StepSendsSequential(ch: Channel, s: Step)
    requires Allowed(ch, s) && Apply(ch, s).channel.Some?
    ensures SendsSequentially(ch.our, Apply(ch, s).channel.value.our, Apply(ch, s).events)
       <==> !DoublesRequest(ch, s)
  {
    hide HandleBlock, ReceiveWithdrawRequest, ReceiveWithdrawConfirmation, SendsSequentially, CheckWithdrawRequest,
      CheckRequestUnderCoopSettle, RequestMatchesCoopSettle, GetStatus;
    if s.NewBlock? {
      BlockSendsSequential(ch, s.block);
    } else if s.GotWithdrawRequest? {
      RequestSendsSequential(ch, s.withdraw, s.block);
    } else if s.GotWithdrawConfirmation? {
      ConfirmationSendsSequential(ch, s.withdraw, s.block);
    } else if IsSend(s) {
      SendSendsSequential(ch, s);
    } else {
      OtherSendsSequential(ch, s);
    }
  }

  predicate NeverDoubles(ch: Channel, steps: seq<Step>)
    requires IsRun(ch, steps)
    decreases steps
  {
    steps == [] ||
    (!DoublesRequest(ch, steps[0])
     && var next := Apply(ch, steps[0]).channel;
        next.Some? ==> NeverDoubles(next.value, steps[1..]))
  }

  /** So the messages of a whole run carry consecutive nonces, in the order they are sent. */
  lemma {:induction false} RunSendsSequential(ch: Channel, steps: seq<Step>)
    requires IsRun(ch, steps) && NeverDoubles(ch, steps) && After(ch, steps).Some?
    ensures SendsSequentially(ch.our, After(ch, steps).value.our, Emitted(ch, steps))
    decreases steps
  {
    hide Apply, Allowed, DoublesRequest;
    if steps != [] {
      var r := Apply(ch, steps[0]);
      StepSendsSequential(ch, steps[0]);
      RunSendsSequential(r.channel.value, steps[1..]);
      SentNoncesConcat(r.events, Emitted(r.channel.value, steps[1..]));
    }
  }
}
