/**
 A withdraw from the request to the transaction. Two nodes that agree about the channel exchange the
 request and the confirmation, neither refuses, and they agree again afterwards.
 */
module WithdrawHandshake {
  import opened LockCodec
  import opened ChannelState
  import opened ChannelValidation
  import opened ChannelTransitions
  import opened LockAccounting
  import opened AccountedRuns
  import opened Solvency
  import opened Ledgers
  import opened Agreement

  lemma {:induction false} FindPut(ws: seq<Withdraw>, w: Withdraw)
    ensures FindWithdraw(PutWithdraw(ws, w), w.total) == Some(w)
  {
    if ws != [] && ws[0].total != w.total {
      FindPut(ws[1..], w);
    }
  }

  /** Both nodes know the same withdraws of `x`, and no cooperative settlement is under way. */
  ghost predicate SameWithdraws(x: Channel, y: Channel)
  {
    && x.our.withdrawsPending == y.partner.withdrawsPending
    && x.our.onchainTotalWithdraw == y.partner.onchainTotalWithdraw
    && TotalWithdraw(x.partner) == TotalWithdraw(y.our)
    && x.our.coopSettle.None? && x.partner.coopSettle.None? && y.our.coopSettle.None? && y.partner.coopSettle.None?
  }

  function Request(x: Channel, total: nat, nonce: nat, expiration: int): WithdrawMsg
  {
    WithdrawMsg(x.id, x.our.address, x.our.address, total, nonce, expiration, Some(x.our.address), false)
  }

  function Confirmation(y: Channel, total: nat, nonce: nat, expiration: int): WithdrawMsg
  {
    WithdrawMsg(y.id, y.partner.address, y.our.address, total, nonce, expiration, Some(y.our.address), false)
  }

  /** The request of a node is acceptable to the other one. */
  lemma RequestAccepted(s: System, total: nat, block: nat)
    requires Agreed(s) && s.ab == [] && SameWithdraws(s.a, s.b)
    requires CheckTotalWithdraw(s.a, total, false).Accept?
    ensures CheckWithdrawRequest(
      s.b, Request(s.a, total, NextNonce(s.a.our), SafeInitialExpiration(block, s.a.revealTimeout))).Accept?
  {
    FundsAgree(s.a, s.b, s.ab, s.ba);
    assert LedgerOf(s.b.partner) == LedgerOf(s.a.our);
    assert TotalWithdraw(s.b.partner) == TotalWithdraw(s.a.our);
    hide Linked, Healthy, TotalWithdraw, LedgerOf;
    LinkedParties(s.a, s.b, s.ab);
    LedgerParts(s.b.partner, s.a.our);
  }

  lemma LinkedParties(x: Channel, y: Channel, queue: seq<Envelope>)
    requires Linked(x, y, queue)
    ensures x.id == y.id && x.our.address == y.partner.address
  {
  }

  lemma LedgerParts(e: End, e': End)
    requires LedgerOf(e) == LedgerOf(e')
    ensures e.nonce == e'.nonce && Transferred(e) == Transferred(e')
  {
  }

  /** Two channels whose locks are untouched, whose nonces match and whose totals agree are in agreement. */
  lemma AgreedAgain(s: System, x: Channel, y: Channel)
    requires Agreed(s) && s.ab == [] && s.ba == []
    requires SameBothLocks(s.a, x) && SameBothLocks(s.b, y)
    requires SameNames(s.a, x) && SameNames(s.b, y) && GetStatus(x) == Opened && GetStatus(y) == Opened
    requires x.our.nonce == y.partner.nonce && y.our.nonce == x.partner.nonce
    requires TotalWithdraw(y.partner) <= TotalWithdraw(x.our) && TotalWithdraw(x.partner) <= TotalWithdraw(y.our)
    ensures Agreed(System(x, y, [], []))
  {
    hide TotalWithdraw, GetStatus, Accounted, AllLocks, AmountLocked, Transferred;
    SameLocksAccounted(x.keccak, s.a.our, x.our);
    SameLocksAccounted(x.keccak, s.a.partner, x.partner);
    SameLocksAccounted(y.keccak, s.b.our, y.our);
    SameLocksAccounted(y.keccak, s.b.partner, y.partner);
  }

  ghost predicate SameNames(x: Channel, x': Channel)
  {
    x'.id == x.id && x'.our.address == x.our.address && x'.partner.address == x.partner.address
    && x'.our.contractBalance == x.our.contractBalance && x'.partner.contractBalance == x.partner.contractBalance
  }

  // ---------- what each message changes ----------

  lemma AskingChanges(ch: Channel, total: nat, block: nat)
    requires CheckTotalWithdraw(ch, total, false).Accept?
    ensures var w := Withdraw(total, SafeInitialExpiration(block, ch.revealTimeout), NextNonce(ch.our));
      ActionWithdraw(ch, total, block).channel
      == ch.(our := ch.our.(nonce := w.nonce, withdrawsPending := PutWithdraw(ch.our.withdrawsPending, w)))
  {
    hide PutWithdraw;
  }

  lemma AnsweringChanges(ch: Channel, m: WithdrawMsg, block: nat)
    requires CheckWithdrawRequest(ch, m).Accept? && ch.our.coopSettle.None? && !m.coopSettle
    ensures ReceiveWithdrawRequest(ch, m, block).channel
      == ch.(our := ch.our.(nonce := NextNonce(ch.our)),
             partner := ch.partner.(
               nonce := m.nonce,
               withdrawsPending := PutWithdraw(ch.partner.withdrawsPending, Withdraw(m.total, m.expiration, m.nonce))))
  {
    hide PutWithdraw, CheckWithdrawRequest, MaxWithdraw;
  }

  lemma ConfirmingChanges(ch: Channel, m: WithdrawMsg, block: nat)
    requires CheckWithdrawConfirmation(ch, m).Accept? && ch.our.coopSettle.None?
    ensures ReceiveWithdrawConfirmation(ch, m, block).channel == ch.(partner := ch.partner.(nonce := m.nonce))
  {
    hide CheckWithdrawConfirmation;
  }

  // ---------- the three messages ----------

  function Expiration(s: System, block: nat): int { SafeInitialExpiration(block, s.a.revealTimeout) }

  /** Node `a` starts the withdraw. */
  function Asked(s: System, total: nat, block: nat): Next { ActionWithdraw(s.a, total, block) }

  function TheRequest(s: System, total: nat, block: nat): WithdrawMsg
  {
    Request(s.a, total, NextNonce(s.a.our), Expiration(s, block))
  }

  function TheConfirmation(s: System, total: nat, block: nat): WithdrawMsg
  {
    Confirmation(s.b, total, NextNonce(s.b.our), Expiration(s, block))
  }

  /** Node `b` answers. */
  function Answered(s: System, total: nat, block: nat, blockThere: nat): Next
    requires s.b.our.coopSettle.None?
  {
    ReceiveWithdrawRequest(s.b, TheRequest(s, total, block), blockThere)
  }

  /** Node `a` receives the confirmation. */
  function Done(s: System, total: nat, block: nat, blockBack: nat): Next
    requires OneCoopSettle(Asked(s, total, block).channel)
  {
    ReceiveWithdrawConfirmation(Asked(s, total, block).channel, TheConfirmation(s, total, block), blockBack)
  }

  lemma AskedKeepsSettlement(s: System, total: nat, block: nat)
    requires SameWithdraws(s.a, s.b)
    ensures Asked(s, total, block).channel.our.coopSettle.None? && s.b.our.coopSettle.None?
    ensures OneCoopSettle(Asked(s, total, block).channel)
  {
    hide CheckTotalWithdraw, PutWithdraw, GetStatus, TotalWithdraw;
  }

  /** Neither message is refused, and the transaction follows if there is time for it. */
  lemma MessagesFollow(s: System, total: nat, block: nat, blockThere: nat, blockBack: nat)
    requires Agreed(s) && s.ab == [] && s.ba == [] && SameWithdraws(s.a, s.b)
    requires CheckTotalWithdraw(s.a, total, false).Accept?
    ensures s.b.our.coopSettle.None? && OneCoopSettle(Asked(s, total, block).channel)
    ensures Asked(s, total, block).events
         == [SendWithdrawRequest(total, NextNonce(s.a.our), Expiration(s, block), false)]
    ensures Answered(s, total, block, blockThere).events
         == [SendWithdrawConfirmation(total, NextNonce(s.b.our), Expiration(s, block))]
    ensures Done(s, total, block, blockBack).events
         == if Expiration(s, block) >= blockBack - s.a.revealTimeout
            then [SendProcessed, ContractSendWithdraw(total, Expiration(s, block))] else [SendProcessed]
  {
    AskedKeepsSettlement(s, total, block);
    RequestAccepted(s, total, block);
    ConfirmationAccepted(s, total, Expiration(s, block));
    Mirrors(s);
    hide Agreed, PutWithdraw, CheckWithdrawRequest, CheckWithdrawConfirmation, SafeInitialExpiration, TotalWithdraw, Balance;
  }

  /** The two channels afterwards, field by field. */
  lemma ChannelsAfter(s: System, total: nat, block: nat, blockThere: nat, blockBack: nat)
    requires Agreed(s) && s.ab == [] && s.ba == [] && SameWithdraws(s.a, s.b)
    requires CheckTotalWithdraw(s.a, total, false).Accept?
    ensures s.b.our.coopSettle.None? && OneCoopSettle(Asked(s, total, block).channel)
    ensures var w := Withdraw(total, Expiration(s, block), NextNonce(s.a.our)); var a, b := s.a, s.b;
      Done(s, total, block, blockBack).channel
      == a.(our := a.our.(nonce := w.nonce, withdrawsPending := PutWithdraw(a.our.withdrawsPending, w)),
            partner := a.partner.(nonce := NextNonce(b.our)))
      && Answered(s, total, block, blockThere).channel
      == b.(our := b.our.(nonce := NextNonce(b.our)),
            partner := b.partner.(nonce := w.nonce, withdrawsPending := PutWithdraw(b.partner.withdrawsPending, w)))
  {
    hide PutWithdraw, SafeInitialExpiration, CheckTotalWithdraw, CheckWithdrawRequest, CheckWithdrawConfirmation, Agreed,
      ActionWithdraw, ReceiveWithdrawRequest, ReceiveWithdrawConfirmation, GetStatus, TotalWithdraw;
    AskedKeepsSettlement(s, total, block);
    RequestAccepted(s, total, block);
    ConfirmationAccepted(s, total, Expiration(s, block));
    AskingChanges(s.a, total, block);
    AnsweringChanges(s.b, TheRequest(s, total, block), blockThere);
    AskedIsSent(s, total, block);
    ConfirmingChanges(Asked(s, total, block).channel, TheConfirmation(s, total, block), blockBack);
  }

  lemma AskedIsSent(s: System, total: nat, block: nat)
    requires CheckTotalWithdraw(s.a, total, false).Accept?
    ensures Asked(s, total, block) == SendWithdraw(s.a, total, Expiration(s, block), false)
  {
    hide PutWithdraw;
  }

  /**
   The exchange succeeds: no message is refused, both nodes know the new total, and they are in
   agreement again, so that any run, or another exchange, may follow.
   */
  lemma HandshakeSucceeds(s: System, total: nat, block: nat, blockThere: nat, blockBack: nat)
    requires Agreed(s) && s.ab == [] && s.ba == [] && SameWithdraws(s.a, s.b)
    requires CheckTotalWithdraw(s.a, total, false).Accept?
    ensures s.b.our.coopSettle.None? && OneCoopSettle(Asked(s, total, block).channel)
    ensures Done(s, total, block, blockBack).events
         == if Expiration(s, block) >= blockBack - s.a.revealTimeout
            then [SendProcessed, ContractSendWithdraw(total, Expiration(s, block))] else [SendProcessed]
    ensures var x, y := Done(s, total, block, blockBack).channel, Answered(s, total, block, blockThere).channel;
      SameWithdraws(x, y) && TotalWithdraw(x.our) == TotalWithdraw(y.partner) == total
      && Agreed(System(x, y, [], []))
  {
    MessagesFollow(s, total, block, blockThere, blockBack);
    ChannelsAfter(s, total, block, blockThere, blockBack);
    TotalAfterPut(s.a.our, Withdraw(total, Expiration(s, block), NextNonce(s.a.our)));
    Mirrors(s);
    hide Agreed, Asked, Answered, Done, PutWithdraw, MaxTotal, CheckTotalWithdraw, SafeInitialExpiration;
    AgreedAgain(s, Done(s, total, block, blockBack).channel, Answered(s, total, block, blockThere).channel);
  }

  lemma Mirrors(s: System)
    requires Agreed(s) && s.ab == [] && s.ba == []
    ensures s.a.our.nonce == s.b.partner.nonce && s.b.our.nonce == s.a.partner.nonce
    ensures s.a.our.address == s.b.partner.address && s.b.our.address == s.a.partner.address
    ensures s.a.id == s.b.id && GetStatus(s.a) == Opened && GetStatus(s.b) == Opened
  {
    hide LedgerOf, BothAccounted, BothInRange, Chain;
    LedgerParts(s.b.partner, s.a.our);
    LedgerParts(s.a.partner, s.b.our);
  }

  lemma ConfirmationAccepted(s: System, total: nat, expiration: int)
    requires Agreed(s) && s.ab == [] && s.ba == [] && SameWithdraws(s.a, s.b)
    requires CheckTotalWithdraw(s.a, total, false).Accept?
    ensures CheckWithdrawConfirmation(
      SendWithdraw(s.a, total, expiration, false).channel,
      Confirmation(s.b, total, NextNonce(s.b.our), expiration)).Accept?
  {
    hide Agreed, PutWithdraw, FindWithdraw, MaxTotal;
    var w := Withdraw(total, expiration, NextNonce(s.a.our));
    TotalAfterPut(s.a.our, w);
    FindPut(s.a.our.withdrawsPending, w);
    Mirrors(s);
    hide TotalWithdraw, Balance, GetStatus, SameWithdraws;
  }
}
