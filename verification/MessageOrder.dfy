/**
 A batch of received messages: duplicates are dropped and what is left is sorted, so that the
 envelopes of a channel are dispatched in the order of their nonces and secret reveals come last.
 */
module MessageOrder {
  import opened LockCodec
  import opened LockMaps
  import opened StableSort
  import opened ChannelState
  import opened ChannelValidation
  import opened ChannelTransitions
  import opened ChannelRuns
  import opened Nonces

  /** A received message, told apart by its identifier, and the state changes its handler returns. */
  datatype Message = Message(id: nat, changes: seq<Step>)

  /** The state changes of several messages, one message after another. */
  function Collected(messages: seq<Message>): seq<Step>
    decreases |messages|
  {
    if messages == [] then []
    else Collected(messages[..|messages| - 1]) + messages[|messages| - 1].changes
  }

  lemma {:induction false} CollectedFrom(messages: seq<Message>, s: Step)
    ensures s in Collected(messages) <==> exists m :: m in messages && s in m.changes
    decreases |messages|
  {
    if messages != [] {
      var n := |messages| - 1;
      assert messages == messages[..n] + [messages[n]];
      CollectedFrom(messages[..n], s);
    }
  }

  // ---------- the sort key ----------

  datatype Key = Key(channel: nat, nonce: nat) | Infinite

  /** The proof a state change carries, if it is a `BalanceProofStateChange`. */
  function ProofOf(s: Step): Option<BalanceProof>
  {
    match s
    case GotTransfer(m) => Some(m.proof)
    case GotRefund(m, _) => Some(m.proof)
    case GotUnlock(m) => Some(m.proof)
    case GotLockExpired(m, _) => Some(m.proof)
    case _ => None
  }

  /** `by_canonical_identifier`. */
  function KeyOf(s: Step): Key
  {
    var proof := ProofOf(s);
    if proof.Some? then Key(proof.value.id.channel, proof.value.nonce)
    else if s.SecretRevealed? then Infinite
    else Key(0, 0)
  }

  predicate KeyLe(a: Key, b: Key)
  {
    b.Infinite? || (a.Key? && (a.channel < b.channel || (a.channel == b.channel && a.nonce <= b.nonce)))
  }

  predicate NotAfter(a: Step, b: Step) { KeyLe(KeyOf(a), KeyOf(b)) }

  lemma NotAfterCompares()
    ensures IsComparison(NotAfter)
  {
    hide KeyOf;
  }

  /**
   `on_messages`: each distinct message is handled once, in no particular order, and the state
   changes that come of it are dispatched in the order of their keys.
   */
  method OnMessages(messages: seq<Message>) returns (dispatched: seq<Step>, ghost handled: seq<Message>)
    ensures NoDuplicates(handled) && forall m :: m in handled <==> m in messages
    ensures dispatched == Sort(NotAfter, Collected(handled))
    ensures Ordered(NotAfter, dispatched)
    ensures forall s :: s in dispatched <==> exists m :: m in messages && s in m.changes
  {
    var unique := set m | m in messages;
    handled := [];
    var changes: seq<Step> := [];
    while unique != {}
      invariant NoDuplicates(handled) && changes == Collected(handled)
      invariant forall m :: m in messages <==> m in handled || m in unique
      invariant forall m :: m in handled ==> m !in unique
      decreases unique
    {
      var m :| m in unique;
      changes := changes + m.changes;
      assert (handled + [m])[..|handled|] == handled;
      handled := handled + [m];
      unique := unique - {m};
    }
    NotAfterCompares();
    SortOrdered(NotAfter, changes);
    dispatched := Sort(NotAfter, changes);
    forall s ensures s in dispatched <==> exists m :: m in messages && s in m.changes {
      CollectedFrom(handled, s);
    }
  }

  // ---------- consecutive envelopes of one channel ----------

  predicate IsEnvelope(s: Step) { ProofOf(s).Some? }

  predicate IsReveal(s: Step) { s.SecretRevealed? }

  function EnvelopeOf(id: CanonicalId): Step -> bool
  {
    (s: Step) => IsEnvelope(s) && ProofOf(s).value.id == id
  }

  /** Envelopes of one channel with the nonces that follow `nonce`, in order. */
  predicate Consecutive(id: CanonicalId, nonce: nat, envelopes: seq<Step>)
  {
    forall i :: 0 <= i < |envelopes| ==>
      EnvelopeOf(id)(envelopes[i]) && KeyOf(envelopes[i]) == Key(id.channel, nonce + 1 + i)
  }

  lemma FirstIsLeast(s: seq<Step>, m: Step)
    requires Ordered(NotAfter, s) && m in s
    ensures NotAfter(s[0], m)
  {
  }

  lemma NothingAfterReveal(a: Step, b: Step)
    requires IsReveal(a) && NotAfter(a, b)
    ensures IsReveal(b) && !IsEnvelope(b) && !IsEnvelope(a)
  {
  }

  /** An ordered list of envelopes and reveals is the envelopes followed by the reveals. */
  lemma {:induction false} RevealsLast(s: seq<Step>)
    requires Ordered(NotAfter, s) && forall m :: m in s ==> IsEnvelope(m) || IsReveal(m)
    ensures s == Select(s, IsEnvelope) + Select(s, IsReveal)
  {
    hide IsEnvelope, IsReveal, NotAfter, Select;
    if s == [] {
      SelectNone(s, IsEnvelope);
      SelectNone(s, IsReveal);
    } else {
      if IsReveal(s[0]) {
        forall m | m in s ensures IsReveal(m) && !IsEnvelope(m) {
          FirstIsLeast(s, m);
          NothingAfterReveal(s[0], m);
        }
        SelectAll(s, IsReveal);
        SelectNone(s, IsEnvelope);
      } else {
        RevealsLast(s[1..]);
        SelectHead(s, IsEnvelope);
        SelectHead(s, IsReveal);
        assert s == [s[0]] + s[1..] && s[0] in s;
      }
    }
  }

  ghost predicate DistinctKeys(s: seq<Step>)
  {
    forall m, n :: m in s && n in s && KeyOf(m) == KeyOf(n) ==> m == n
  }

  /** There is only one way to order state changes whose keys are all different. */
  lemma {:induction false} OneOrder(a: seq<Step>, b: seq<Step>)
    requires NoDuplicates(a) && NoDuplicates(b) && Ordered(NotAfter, a) && Ordered(NotAfter, b)
    requires (forall m :: m in a <==> m in b) && DistinctKeys(a)
    ensures a == b
  {
    hide KeyOf;
    assert b != [] ==> b[0] in b;
    if a != [] {
      assert a[0] in a;
      FirstIsLeast(a, b[0]);
      FirstIsLeast(b, a[0]);
      DistinctTail(a);
      DistinctTail(b);
      assert KeyOf(a[0]) == KeyOf(b[0]);
      assert a == [a[0]] + a[1..] && b == [b[0]] + b[1..];
      forall m ensures m in a[1..] <==> m in b[1..] {
        assert m in a[1..] <==> m in a && m != a[0];
      }
      OneOrder(a[1..], b[1..]);
    }
  }

  lemma ConsecutiveOrdered(id: CanonicalId, nonce: nat, envelopes: seq<Step>)
    requires Consecutive(id, nonce, envelopes)
    ensures NoDuplicates(envelopes) && Ordered(NotAfter, envelopes) && DistinctKeys(envelopes)
  {
    hide KeyOf;
    forall m, n | m in envelopes && n in envelopes && KeyOf(m) == KeyOf(n) ensures m == n {
      var i :| 0 <= i < |envelopes| && envelopes[i] == m;
      var j :| 0 <= j < |envelopes| && envelopes[j] == n;
    }
  }

  /** These are the envelopes of the channel in the batch, each of which it holds once. */
  ghost predicate HoldsEnvelopes(changes: seq<Step>, id: CanonicalId, envelopes: seq<Step>)
  {
    && NoDuplicates(Select(changes, EnvelopeOf(id)))
    && (forall s :: s in envelopes <==> s in changes && EnvelopeOf(id)(s))
  }

  /**
   Whatever the order they were collected in and whatever else is in the batch, the dispatch restores
   the order of the nonces of each channel, and nothing but reveals comes after a reveal.
   */
  lemma DispatchInOrder(changes: seq<Step>, id: CanonicalId, nonce: nat, envelopes: seq<Step>)
    requires Consecutive(id, nonce, envelopes) && HoldsEnvelopes(changes, id, envelopes)
    ensures var dispatched := Sort(NotAfter, changes);
      Select(dispatched, EnvelopeOf(id)) == envelopes
      && forall i, j :: 0 <= i < j < |dispatched| && IsReveal(dispatched[i]) ==> IsReveal(dispatched[j])
  {
    var dispatched := Sort(NotAfter, changes);
    ConsecutiveOrdered(id, nonce, envelopes);
    NotAfterCompares();
    SortOrdered(NotAfter, changes);
    forall i, j | 0 <= i < j < |dispatched| && IsReveal(dispatched[i]) ensures IsReveal(dispatched[j]) {
      NothingAfterReveal(dispatched[i], dispatched[j]);
    }
    hide IsEnvelope, IsReveal, NotAfter, KeyOf, Consecutive, Ordered, NoDuplicates, IsComparison, DistinctKeys;
    SelectSort(NotAfter, changes, EnvelopeOf(id));
    SortDistinct(NotAfter, Select(changes, EnvelopeOf(id)));
    SelectOrdered(NotAfter, dispatched, EnvelopeOf(id));
    OneOrder(envelopes, Select(dispatched, EnvelopeOf(id)));
  }

  // ---------- the channel ----------

  /** Every reveal of a batch names the same secret for the same hash. */
  ghost predicate Consistent(told: seq<Step>)
  {
    (forall s :: s in told ==> s.SecretRevealed?)
    && forall s, t :: s in told && t in told && s.secrethash == t.secrethash ==> s == t
  }

  function SecretsOf(told: seq<Step>): map<Hash, Bytes>
    requires forall s :: s in told ==> s.SecretRevealed?
  {
    if told == [] then map[]
    else
      assert told == [told[0]] + told[1..];
      SecretsOf(told[1..])[told[0].secrethash := told[0].secret]
  }

  lemma {:induction false} SecretsTold(told: seq<Step>, h: Hash, secret: Bytes)
    requires Consistent(told)
    ensures h in SecretsOf(told) && SecretsOf(told)[h] == secret <==> SecretRevealed(secret, h) in told
  {
    var s := SecretRevealed(secret, h);
    if told != [] {
      var first := told[0];
      assert told == [first] + told[1..] && first == SecretRevealed(first.secret, first.secrethash);
      SecretsTold(told[1..], h, secret);
      if first.secrethash == h {
        assert SecretsOf(told)[h] == first.secret;
        assert s in told <==> s == first;
      } else {
        assert s in told <==> s in told[1..];
      }
    }
  }

  /** Learning several secrets at once. */
  function StillLocked(locked: LockMap, secrets: map<Hash, Bytes>): LockMap
  {
    map h | h in locked && h !in secrets :: locked[h]
  }

  function NowUnlocked(locked: LockMap, unlocked: ProofMap, secrets: map<Hash, Bytes>): ProofMap
  {
    map h | h in unlocked.Keys + (locked.Keys * secrets.Keys) ::
      if h in locked && h in secrets then UnlockProof(locked[h], secrets[h]) else unlocked[h]
  }

  function LearnEnd(e: End, secrets: map<Hash, Bytes>): End
  {
    e.(locked := StillLocked(e.locked, secrets), unlocked := NowUnlocked(e.locked, e.unlocked, secrets))
  }

  function Learn(ch: Channel, secrets: map<Hash, Bytes>): Channel
  {
    ch.(our := LearnEnd(ch.our, secrets), partner := LearnEnd(ch.partner, secrets))
  }

  predicate Received(s: Step) { IsEnvelope(s) || IsReveal(s) }

  lemma {:induction false} ReceivedRun(ch: Channel, steps: seq<Step>)
    requires forall s :: s in steps ==> Received(s)
    ensures IsRun(ch, steps) && After(ch, steps).Some?
    decreases steps
  {
    if steps != [] {
      assert Received(steps[0]);
      hide CheckTransfer, CheckRefund, CheckUnlock, CheckLockExpired;
      ReceivedRun(Apply(ch, steps[0]).channel.value, steps[1..]);
    }
  }

  lemma {:induction false} AfterConcat(ch: Channel, a: seq<Step>, b: seq<Step>)
    requires IsRun(ch, a + b) && IsRun(ch, a) && After(ch, a).Some? && IsRun(After(ch, a).value, b)
    ensures After(ch, a + b) == After(After(ch, a).value, b)
    decreases a
  {
    hide Apply, Allowed;
    if a == [] {
      assert a + b == b;
    } else {
      assert (a + b)[0] == a[0] && (a + b)[1..] == a[1..] + b;
      AfterConcat(Apply(ch, a[0]).channel.value, a[1..], b);
    }
  }

  lemma LearnMaps(locked: LockMap, unlocked: ProofMap, k: Hash, secret: Bytes, secrets: map<Hash, Bytes>)
    requires k in locked && (k in secrets ==> secrets[k] == secret)
    ensures StillLocked(Without(locked, k), secrets) == StillLocked(locked, secrets[k := secret])
    ensures NowUnlocked(Without(locked, k), unlocked[k := UnlockProof(locked[k], secret)], secrets)
         == NowUnlocked(locked, unlocked, secrets[k := secret])
  {
  }

  lemma LearnUnknown(locked: LockMap, unlocked: ProofMap, k: Hash, secret: Bytes, secrets: map<Hash, Bytes>)
    requires k !in locked
    ensures StillLocked(locked, secrets) == StillLocked(locked, secrets[k := secret])
    ensures NowUnlocked(locked, unlocked, secrets) == NowUnlocked(locked, unlocked, secrets[k := secret])
  {
  }

  lemma LearnOne(e: End, secret: Bytes, h: Hash, secrets: map<Hash, Bytes>)
    requires h in secrets ==> secrets[h] == secret
    ensures LearnEnd(RegisterSecretEnd(e, secret, h), secrets) == LearnEnd(e, secrets[h := secret])
  {
    if h in e.locked {
      LearnMaps(e.locked, e.unlocked, h, secret, secrets);
    } else {
      LearnUnknown(e.locked, e.unlocked, h, secret, secrets);
    }
    hide StillLocked, NowUnlocked, Without;
  }

  lemma LearnNothing(e: End)
    ensures LearnEnd(e, map[]) == e
  {
    assert StillLocked(e.locked, map[]) == e.locked;
    assert NowUnlocked(e.locked, e.unlocked, map[]) == e.unlocked;
  }

  /** The order of reveals is irrelevant: together they teach exactly their secrets. */
  lemma {:induction false} RevealsLearn(ch: Channel, told: seq<Step>)
    requires Consistent(told)
    ensures IsRun(ch, told) && After(ch, told) == Some(Learn(ch, SecretsOf(told)))
    decreases told
  {
    hide LearnEnd, RegisterSecretEnd;
    if told == [] {
      LearnNothing(ch.our);
      LearnNothing(ch.partner);
    } else {
      var s, rest := told[0], told[1..];
      assert told == [s] + rest && s in told;
      var ch1 := RegisterSecret(ch, s.secret, s.secrethash);
      assert Apply(ch, s) == Final(Some(ch1), []);
      RevealsLearn(ch1, rest);
      TellsSame(told);
      LearnOne(ch.our, s.secret, s.secrethash, SecretsOf(rest));
      LearnOne(ch.partner, s.secret, s.secrethash, SecretsOf(rest));
    }
  }

  lemma TellsSame(told: seq<Step>)
    requires Consistent(told) && told != []
    ensures var s, secrets := told[0], SecretsOf(told[1..]);
      s.secrethash in secrets ==> secrets[s.secrethash] == s.secret
  {
    var s, rest := told[0], told[1..];
    assert told == [s] + rest && s in told;
    if s.secrethash in SecretsOf(rest) {
      SecretsTold(rest, s.secrethash, SecretsOf(rest)[s.secrethash]);
    }
  }

  /** A message for another channel. */
  predicate Foreign(id: CanonicalId, s: Step)
  {
    match s
    case GotTransfer(m) => m.proof.id != id
    case GotRefund(m, _) => m.proof.id != id
    case GotUnlock(m) => m.proof.id != id
    case GotLockExpired(m, _) => m.proof.id != id
    case GotWithdrawRequest(m, _) => m.id != id
    case GotWithdrawConfirmation(m, _) => m.id != id
    case GotWithdrawExpired(m, _) => m.id != id
    case _ => false
  }

  lemma ForeignIgnored(ch: Channel, s: Step)
    requires Foreign(ch.id, s)
    ensures Allowed(ch, s) && Apply(ch, s).channel == Some(ch)
  {
  }

  lemma ReceivedKeepsId(ch: Channel, s: Step)
    requires Received(s)
    ensures Allowed(ch, s) && Apply(ch, s).channel.Some? && Apply(ch, s).channel.value.id == ch.id
  {
    hide CheckTransfer, CheckRefund, CheckUnlock, CheckLockExpired, AmountLocked, Locksroot;
  }

  function Own(id: CanonicalId): Step -> bool { (s: Step) => !Foreign(id, s) }

  /** Messages for other channels leave no trace. */
  lemma {:induction false} OwnSteps(ch: Channel, steps: seq<Step>)
    requires forall s :: s in steps ==> Received(s) || Foreign(ch.id, s)
    ensures IsRun(ch, steps) && IsRun(ch, Select(steps, Own(ch.id))) && After(ch, steps).Some?
    ensures After(ch, steps) == After(ch, Select(steps, Own(ch.id)))
    decreases steps
  {
    hide Apply, Allowed, Foreign, Received;
    if steps != [] {
      var s, rest := steps[0], steps[1..];
      assert s in steps && steps == [s] + rest;
      if Foreign(ch.id, s) {
        ForeignIgnored(ch, s);
        OwnSteps(ch, rest);
      } else {
        ReceivedKeepsId(ch, s);
        OwnSteps(Apply(ch, s).channel.value, rest);
        assert Select(steps, Own(ch.id))[1..] == Select(rest, Own(ch.id));
      }
    }
  }

  lemma OwnKinds(id: CanonicalId)
    ensures forall s :: IsReveal(s) ==> Own(id)(s) && !IsEnvelope(s)
    ensures forall s :: EnvelopeOf(id)(s) <==> IsEnvelope(s) && Own(id)(s)
  {
  }

  /** The channel's own part of a dispatch: its envelopes in order, then the reveals. */
  lemma OwnDispatch(changes: seq<Step>, id: CanonicalId, nonce: nat, envelopes: seq<Step>)
    requires Consecutive(id, nonce, envelopes) && HoldsEnvelopes(changes, id, envelopes)
    requires forall s :: s in changes ==> s in envelopes || IsReveal(s) || Foreign(id, s)
    ensures var dispatched := Sort(NotAfter, changes);
      Select(dispatched, Own(id)) == envelopes + Select(dispatched, IsReveal)
  {
    hide IsEnvelope, IsReveal, NotAfter, KeyOf, Consecutive, Ordered, NoDuplicates, IsComparison, Foreign, Select,
      EnvelopeOf;
    OwnKinds(id);
    assert forall s :: s in changes && Own(id)(s) ==> IsEnvelope(s) || IsReveal(s);
    DispatchInOrder(changes, id, nonce, envelopes);
    hide HoldsEnvelopes, Own;
    NotAfterCompares();
    var dispatched := Sort(NotAfter, changes);
    var own := Select(dispatched, Own(id));
    SortOrdered(NotAfter, changes);
    SelectOrdered(NotAfter, dispatched, Own(id));
    RevealsLast(own);
    SelectSelect(dispatched, Own(id), IsReveal);
    SelectSelect(dispatched, Own(id), EnvelopeOf(id));
    SelectSame(own, IsEnvelope, EnvelopeOf(id));
  }

  /**
   The final state of the channel is the one in-order delivery gives, with the reveals in any order
   after the envelopes, and with any messages for other channels in between.
   */
  lemma BatchEqualsInOrder(ch: Channel, changes: seq<Step>, nonce: nat, envelopes: seq<Step>, told: seq<Step>)
    requires Consecutive(ch.id, nonce, envelopes) && HoldsEnvelopes(changes, ch.id, envelopes)
    requires forall s :: s in changes ==> s in envelopes || IsReveal(s) || Foreign(ch.id, s)
    requires Consistent(told) && forall s :: s in told <==> s in changes && IsReveal(s)
    ensures var dispatched := Sort(NotAfter, changes);
      IsRun(ch, dispatched) && IsRun(ch, envelopes + told)
      && After(ch, dispatched) == After(ch, envelopes + told)
  {
    var dispatched := Sort(NotAfter, changes);
    var last := Select(dispatched, IsReveal);
    assert forall s :: s in envelopes ==> Received(s);
    assert Consistent(last);
    hide Consecutive, HoldsEnvelopes, KeyOf, ProofOf, Apply, Allowed, After, IsRun, Sort, Foreign, IsEnvelope;
    OwnDispatch(changes, ch.id, nonce, envelopes);
    OwnSteps(ch, dispatched);
    SameAfter(ch, envelopes, last, told);
  }

  lemma SameSecrets(a: seq<Step>, b: seq<Step>)
    requires Consistent(a) && Consistent(b) && forall s :: s in a <==> s in b
    ensures SecretsOf(a) == SecretsOf(b)
  {
    forall h | h in SecretsOf(a) ensures h in SecretsOf(b) && SecretsOf(b)[h] == SecretsOf(a)[h] {
      SecretsTold(a, h, SecretsOf(a)[h]);
      SecretsTold(b, h, SecretsOf(a)[h]);
    }
    forall h | h in SecretsOf(b) ensures h in SecretsOf(a) {
      SecretsTold(b, h, SecretsOf(b)[h]);
      SecretsTold(a, h, SecretsOf(b)[h]);
    }
  }

  lemma SameAfter(ch: Channel, first: seq<Step>, a: seq<Step>, b: seq<Step>)
    requires forall s :: s in first ==> Received(s)
    requires Consistent(a) && Consistent(b) && forall s :: s in a <==> s in b
    ensures IsRun(ch, first + a) && IsRun(ch, first + b) && After(ch, first + a) == After(ch, first + b)
  {
    hide Apply, Allowed, After, IsRun, LearnEnd;
    ReceivedRun(ch, first);
    ReceivedRun(ch, first + a);
    ReceivedRun(ch, first + b);
    RevealsLearn(After(ch, first).value, a);
    RevealsLearn(After(ch, first).value, b);
    AfterConcat(ch, first, a);
    AfterConcat(ch, first, b);
    assert SecretsOf(a) == SecretsOf(b) by { SameSecrets(a, b); }
  }

  // ---------- withdraw messages in the batch ----------

  /** Messages of one channel that carry the nonces following `nonce`, in order. */
  predicate Numbered(channel: nat, nonce: nat, inOrder: seq<Step>)
  {
    forall i :: 0 <= i < |inOrder| ==>
      MessageNonce(inOrder[i]) == Some(nonce + 1 + i)
      && (IsEnvelope(inOrder[i]) ==> ProofOf(inOrder[i]).value.id.channel == channel)
  }

  /** Only the first message may be one of a withdraw: those carry no balance proof. */
  predicate WithdrawFirst(inOrder: seq<Step>)
  {
    forall i :: 0 < i < |inOrder| ==> IsEnvelope(inOrder[i])
  }

  ghost predicate IsPermutation(c: seq<Step>, s: seq<Step>)
  {
    NoDuplicates(c) && forall x :: x in c <==> x in s
  }

  lemma NumberedKey(channel: nat, nonce: nat, inOrder: seq<Step>, i: nat)
    requires Numbered(channel, nonce, inOrder) && i < |inOrder|
    ensures KeyOf(inOrder[i]) == if IsEnvelope(inOrder[i]) then Key(channel, nonce + 1 + i) else Key(0, 0)
  {
  }

  lemma NumberedDistinct(channel: nat, nonce: nat, inOrder: seq<Step>)
    requires Numbered(channel, nonce, inOrder)
    ensures NoDuplicates(inOrder)
  {
    hide MessageNonce, IsEnvelope, ProofOf;
  }

  lemma FirstOrdered(channel: nat, nonce: nat, inOrder: seq<Step>)
    requires Numbered(channel, nonce, inOrder) && WithdrawFirst(inOrder)
    ensures Ordered(NotAfter, inOrder) && DistinctKeys(inOrder)
  {
    forall i | 0 <= i < |inOrder|
      ensures KeyOf(inOrder[i]) == if IsEnvelope(inOrder[i]) then Key(channel, nonce + 1 + i) else Key(0, 0)
    {
      NumberedKey(channel, nonce, inOrder, i);
    }
    hide KeyOf, Numbered, IsEnvelope;
    forall m, n | m in inOrder && n in inOrder && KeyOf(m) == KeyOf(n) ensures m == n {
      var i :| 0 <= i < |inOrder| && inOrder[i] == m;
      var j :| 0 <= j < |inOrder| && inOrder[j] == n;
    }
  }

  /** An arrival order in which the message at `i` comes before the others. */
  function Overtaken(inOrder: seq<Step>, i: nat): seq<Step>
    requires i < |inOrder|
  {
    [inOrder[i]] + inOrder[..i] + inOrder[i + 1..]
  }

  lemma OvertakenPermutes(inOrder: seq<Step>, i: nat)
    requires i < |inOrder| && NoDuplicates(inOrder)
    ensures IsPermutation(Overtaken(inOrder, i), inOrder)
  {
    var c := Overtaken(inOrder, i);
    forall x | x in inOrder ensures x in c {
      var j :| 0 <= j < |inOrder| && inOrder[j] == x;
      assert x == c[if j == i then 0 else if j < i then j + 1 else j];
    }
    assert forall j :: 0 <= j < |c| ==> c[j] == inOrder[if j == 0 then i else if j <= i then j - 1 else j];
  }

  /** A withdraw message is dispatched before everything it arrives ahead of. */
  lemma WithdrawGoesFirst(w: Step, rest: seq<Step>)
    requires KeyOf(w) == Key(0, 0)
    ensures Sort(NotAfter, [w] + rest) == [w] + Sort(NotAfter, rest)
  {
    assert ([w] + rest)[1..] == rest;
  }

  /**
   Exactly when the dispatch restores the order of the nonces: whatever the order of arrival, if and
   only if none but the first message is one of a withdraw.
   */
  lemma RestoredExactly(channel: nat, nonce: nat, inOrder: seq<Step>)
    requires Numbered(channel, nonce, inOrder)
    ensures (forall c :: IsPermutation(c, inOrder) ==> Sort(NotAfter, c) == inOrder) <==> WithdrawFirst(inOrder)
  {
    hide NotAfter, IsEnvelope, KeyOf;
    NumberedDistinct(channel, nonce, inOrder);
    if WithdrawFirst(inOrder) {
      FirstOrdered(channel, nonce, inOrder);
      NotAfterCompares();
      forall c | IsPermutation(c, inOrder) ensures Sort(NotAfter, c) == inOrder {
        SortOrdered(NotAfter, c);
        SortDistinct(NotAfter, c);
        OneOrder(inOrder, Sort(NotAfter, c));
      }
    } else {
      var i :| 0 < i < |inOrder| && !IsEnvelope(inOrder[i]);
      OvertakenPermutes(inOrder, i);
      NumberedKey(channel, nonce, inOrder, i);
      assert Overtaken(inOrder, i) == [inOrder[i]] + (inOrder[..i] + inOrder[i + 1..]);
      WithdrawGoesFirst(inOrder[i], inOrder[..i] + inOrder[i + 1..]);
    }
  }

  /** The partner's nonce cannot pass a number that no message carries. */
  lemma {:induction false} NonceStuck(ch: Channel, steps: seq<Step>, limit: nat)
    requires IsRun(ch, steps) && After(ch, steps).Some? && ch.partner.nonce <= limit
    requires forall s :: s in steps ==> MessageNonce(s) != Some(limit + 1)
    ensures After(ch, steps).value.partner.nonce <= limit
    decreases steps
  {
    hide Apply, Allowed, Accepted, MessageNonce;
    if steps != [] {
      if Accepted(ch, steps[0]) { AcceptedIsNext(ch, steps[0]); }
      PartnerNonceStep(ch, steps[0]);
      NonceStuck(Apply(ch, steps[0]).channel.value, steps[1..], limit);
    }
  }

  lemma RestSkips(channel: nat, nonce: nat, inOrder: seq<Step>, i: nat)
    requires Numbered(channel, nonce, inOrder) && i < |inOrder|
    ensures forall s :: s in inOrder[..i] + inOrder[i + 1..] ==> MessageNonce(s) != Some(nonce + i + 1)
  {
    hide MessageNonce, IsEnvelope, ProofOf;
    var rest := inOrder[..i] + inOrder[i + 1..];
    forall s | s in rest ensures MessageNonce(s) != Some(nonce + i + 1) {
      var k :| 0 <= k < |rest| && rest[k] == s;
      assert s == inOrder[if k < i then k else k + 1];
    }
  }

  /** A message that comes too early, before others none of which has its nonce, is lost. */
  lemma EarlyIsLost(ch: Channel, w: Step, steps: seq<Step>, i: nat)
    requires 0 < i && MessageNonce(w) == Some(ch.partner.nonce + i + 1)
    requires forall s :: s in steps ==> MessageNonce(s) != Some(ch.partner.nonce + i + 1)
    requires IsRun(ch, [w] + steps) && After(ch, [w] + steps).Some?
    ensures After(ch, [w] + steps).value.partner.nonce <= ch.partner.nonce + i
  {
    hide Apply, Allowed, Accepted, MessageNonce;
    if Accepted(ch, w) { AcceptedIsNext(ch, w); }
    assert ([w] + steps)[0] == w && ([w] + steps)[1..] == steps;
    PartnerNonceStep(ch, w);
    NonceStuck(Apply(ch, w).channel.value, steps, ch.partner.nonce + i);
  }

  /** A withdraw message that overtakes an envelope is lost, and everything behind it with it. */
  lemma OvertakingLoses(ch: Channel, channel: nat, inOrder: seq<Step>, i: nat)
    requires Numbered(channel, ch.partner.nonce, inOrder) && 0 < i < |inOrder| && !IsEnvelope(inOrder[i])
    ensures var dispatched := Sort(NotAfter, Overtaken(inOrder, i));
      IsRun(ch, dispatched) && After(ch, dispatched).Some? ==>
        After(ch, dispatched).value.partner.nonce < ch.partner.nonce + |inOrder|
  {
    hide IsRun, After, MessageNonce, Sort, KeyOf, IsEnvelope, ProofOf;
    var w, rest := inOrder[i], inOrder[..i] + inOrder[i + 1..];
    NumberedKey(channel, ch.partner.nonce, inOrder, i);
    assert MessageNonce(w) == Some(ch.partner.nonce + 1 + i);
    hide Numbered;
    RestSkips(channel, ch.partner.nonce, inOrder, i);
    assert Overtaken(inOrder, i) == [w] + rest;
    WithdrawGoesFirst(w, rest);
    var dispatched := [w] + Sort(NotAfter, rest);
    if IsRun(ch, dispatched) && After(ch, dispatched).Some? {
      EarlyIsLost(ch, w, Sort(NotAfter, rest), i);
    }
  }

  /** Every order of arrival of the batch ends in the channel that in-order delivery leads to. */
  ghost predicate AlwaysInOrder(ch: Channel, inOrder: seq<Step>)
    requires IsRun(ch, inOrder)
  {
    forall c :: IsPermutation(c, inOrder) ==>
      IsRun(ch, Sort(NotAfter, c)) && After(ch, Sort(NotAfter, c)) == After(ch, inOrder)
  }

  /**
   Exactly when the dispatch of a batch equals in-order delivery, for messages that are all accepted
   in the order of their nonces.
   */
  lemma InOrderExactly(ch: Channel, channel: nat, inOrder: seq<Step>)
    requires Numbered(channel, ch.partner.nonce, inOrder)
    requires IsRun(ch, inOrder) && After(ch, inOrder).Some?
    requires After(ch, inOrder).value.partner.nonce == ch.partner.nonce + |inOrder|
    ensures AlwaysInOrder(ch, inOrder) <==> WithdrawFirst(inOrder)
  {
    hide IsRun, After, NotAfter, IsEnvelope;
    RestoredExactly(channel, ch.partner.nonce, inOrder);
    if !WithdrawFirst(inOrder) {
      var i :| 0 < i < |inOrder| && !IsEnvelope(inOrder[i]);
      NumberedDistinct(channel, ch.partner.nonce, inOrder);
      OvertakenPermutes(inOrder, i);
      OvertakingLoses(ch, channel, inOrder, i);
      assert IsPermutation(Overtaken(inOrder, i), inOrder);
    }
  }

  // ---------- a batch that is dispatched out of order ----------

  /** The partner's first transfer on a fresh channel. */
  function FirstTransfer(ch: Channel, lock: Lock): Step
  {
    GotTransfer(Transfer(0, 0, 0, 0, lock, BalanceProof(
      1, 0, lock.amount, Locksroot(ch.keccak, [Encode(lock)]), ch.id, Some(ch.partner.address))))
  }

  /** And its request to withdraw the same amount. */
  function ThenRequest(ch: Channel, amount: nat, expiration: int): Step
  {
    GotWithdrawRequest(WithdrawMsg(ch.id, ch.partner.address, ch.partner.address, amount, 2, expiration,
                                   Some(ch.partner.address), false), 0)
  }

  /**
   On every fresh channel with a deposit of the partner: a transfer and a withdraw request are both
   accepted in their order, but dispatched the other way round, and the request is then lost.
   */
  lemma RequestOvertakesTransfer(ch: Channel, lock: Lock, expiration: int)
    requires FreshChannel(ch) && 0 < lock.amount <= ch.partner.contractBalance
    ensures var e, w := FirstTransfer(ch, lock), ThenRequest(ch, lock.amount, expiration);
      Sort(NotAfter, [e, w]) == [w, e]
      && IsRun(ch, [e, w]) && After(ch, [e, w]).Some? && After(ch, [e, w]).value.partner.nonce == 2
      && IsRun(ch, [w, e]) && After(ch, [w, e]).Some? && After(ch, [w, e]).value.partner.nonce == 1
  {
    var e, w := FirstTransfer(ch, lock), ThenRequest(ch, lock.amount, expiration);
    hide Apply, Allowed, FreshChannel;
    TransferTaken(ch, lock);
    var ch1 := Apply(ch, e).channel.value;
    RequestTaken(ch, ch1, lock.amount, expiration);
    assert KeyOf(w) == Key(0, 0) && KeyOf(e) == Key(ch.id.channel, 1);
    TwoSorted(e, w);
    hide Sort, KeyOf, FirstTransfer, ThenRequest;
    RunOfTwo(ch, e, w);
    RunOfTwo(ch, w, e);
  }

  lemma TwoSorted(e: Step, w: Step)
    requires !NotAfter(e, w)
    ensures Sort(NotAfter, [e, w]) == [w, e]
  {
    hide NotAfter;
    assert [e, w][1..] == [w] && [w][1..] == [] && [w] + [] == [w];
    assert Sort(NotAfter, [w]) == [w];
    assert Insert(NotAfter, e, [w]) == [w] + Insert(NotAfter, e, []);
  }

  lemma TransferTaken(ch: Channel, lock: Lock)
    requires FreshChannel(ch) && lock.amount <= ch.partner.contractBalance
    ensures Allowed(ch, FirstTransfer(ch, lock)) && Apply(ch, FirstTransfer(ch, lock)).channel.Some?
    ensures var ch1 := Apply(ch, FirstTransfer(ch, lock)).channel.value;
      ch1 == ch.(partner := ch1.partner) && ch1.partner.nonce == 1 && Transferred(ch1.partner) == 0
      && ch1.partner == ch.partner.(nonce := 1, balanceProof := ch1.partner.balanceProof,
                                    pendingLocks := ch1.partner.pendingLocks, locked := ch1.partner.locked)
  {
    assert LocksOf(ch.partner.unlocked) == map[] && LocksOf(ch.partner.onchain) == map[];
    assert AmountLocked(ch.partner) == 0;
    assert ch.partner.pendingLocks + [Encode(lock)] == [Encode(lock)];
    hide Encode, AmountLocked, Locksroot;
  }

  lemma RequestTaken(ch: Channel, ch1: Channel, amount: nat, expiration: int)
    requires FreshChannel(ch) && 0 < amount <= ch.partner.contractBalance && amount <= UINT256_MAX
    requires ch1 == ch.(partner := ch1.partner) && ch1.partner.nonce == 1 && Transferred(ch1.partner) == 0
    requires ch1.partner == ch.partner.(nonce := 1, balanceProof := ch1.partner.balanceProof,
                                        pendingLocks := ch1.partner.pendingLocks, locked := ch1.partner.locked)
    ensures var w := ThenRequest(ch, amount, expiration);
      Allowed(ch, w) && Apply(ch, w).channel == Some(ch)
      && Allowed(ch1, w) && Apply(ch1, w).channel.Some? && Apply(ch1, w).channel.value.partner.nonce == 2
  {
    hide PutWithdraw;
  }
}
