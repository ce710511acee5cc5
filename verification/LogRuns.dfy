/**
 A node that logs batches of state changes, takes snapshots, and restarts from its tables, as
 functions on values; and what every run of these keeps. `WriteAheadLog` proves the in-place
 operations against these functions.
 */
module LogRuns {
  import opened LockCodec
  import opened StateLog

  /** `HIGH_STATECHANGE_ULID`: an identifier has 128 bits. */
  const HIGH := 0xffff_ffff_ffff_ffff_ffff_ffff_ffff_ffff

  const SNAPSHOT_STATE_CHANGES_COUNT := 500

  // ---------- logging ----------

  /** Monotonic identifiers: the clock, unless that would not be larger than the last one. */
  function NextId(last: nat, clock: nat): nat
  {
    if clock > last then clock else last + 1
  }

  function LastId<C>(rows: seq<ChangeRow<C>>): nat
  {
    if rows == [] then LOW else rows[|rows| - 1].id
  }

  function LastEventId<E>(rows: seq<EventRow<E>>): nat
  {
    if rows == [] then LOW else rows[|rows| - 1].id
  }

  /** `write_events`: every event names the state change it comes from. */
  function LogEvents<E>(rows: seq<EventRow<E>>, source: nat, events: seq<E>, clock: nat): seq<EventRow<E>>
    decreases |events|
  {
    if events == [] then rows
    else
      var n := |events| - 1;
      var before := LogEvents(rows, source, events[..n], clock);
      before + [EventRow(NextId(LastEventId(before), clock), source, events[n])]
  }

  /** `write_state_change_and_events`. */
  function LogChange<S, C, E>(t: Tables<S, C, E>, c: C, events: seq<E>, clock: nat): Tables<S, C, E>
  {
    var id := NextId(LastId(t.changes), clock);
    t.(changes := t.changes + [ChangeRow(id, c)], events := LogEvents(t.events, id, events, clock))
  }

  function FoldBatch<S, C, E>(step: Transition<S, C, E>, s: S, batch: seq<C>): S
    decreases |batch|
  {
    if batch == [] then s
    else step(FoldBatch(step, s, batch[..|batch| - 1]), batch[|batch| - 1]).state
  }

  function LogBatch<S, C, E>(
    step: Transition<S, C, E>, t: Tables<S, C, E>, s: S, batch: seq<C>, clock: nat): Tables<S, C, E>
    decreases |batch|
  {
    if batch == [] then t
    else
      var n := |batch| - 1;
      var before := FoldBatch(step, s, batch[..n]);
      LogChange(LogBatch(step, t, s, batch[..n], clock), batch[n], step(before, batch[n]).events, clock)
  }

  /**
   The two state objects of a batch: the one the dispatcher holds, and the clone that will be
   published. They are the `same` object until a transition returns another one.
   */
  datatype Objects<S> = Objects(held: S, published: S, same: bool)

  function RunObjects<S, C, E>(step: Transition<S, C, E>, s: S, batch: seq<C>): (r: Objects<S>)
    ensures r.same ==> r.published == r.held
    decreases |batch|
  {
    if batch == [] then Objects(s, s, true)
    else
      var o := RunObjects(step, s, batch[..|batch| - 1]);
      var r := step(o.held, batch[|batch| - 1]);
      if r.inPlace then Objects(r.state, if o.same then r.state else o.published, o.same)
      else Objects(r.state, if o.same then r.remains else o.published, false)
  }

  lemma {:induction false} HeldIsFold<S, C, E>(step: Transition<S, C, E>, s: S, batch: seq<C>)
    ensures RunObjects(step, s, batch).held == FoldBatch(step, s, batch)
    decreases |batch|
  {
    if batch != [] {
      HeldIsFold(step, s, batch[..|batch| - 1]);
    }
  }

  /** What the `k`-th transition of a batch yields. */
  function Taken<S, C, E>(step: Transition<S, C, E>, s: S, batch: seq<C>, k: nat): Iteration<S, E>
    requires k < |batch|
  {
    step(FoldBatch(step, s, batch[..k]), batch[k])
  }

  /** Every transition of this batch works in place. */
  ghost predicate BatchInPlace<S, C, E>(step: Transition<S, C, E>, s: S, batch: seq<C>)
  {
    forall k :: 0 <= k < |batch| ==> Taken(step, s, batch, k).inPlace
  }

  /**
   What is published: the fold of the batch if every transition taken works in place, and otherwise
   what the first one that does not leaves in the object it was handed.
   */
  lemma {:induction false} PublishedExactly<S, C, E>(step: Transition<S, C, E>, s: S, batch: seq<C>) returns (k: nat)
    ensures k <= |batch| && forall i :: 0 <= i < k ==> Taken(step, s, batch, i).inPlace
    ensures k < |batch| ==> !Taken(step, s, batch, k).inPlace
    ensures RunObjects(step, s, batch).same <==> k == |batch|
    ensures RunObjects(step, s, batch).published
         == if k == |batch| then FoldBatch(step, s, batch) else Taken(step, s, batch, k).remains
    ensures RunObjects(step, s, batch).published == FoldBatch(step, s, batch)
       <==> BatchInPlace(step, s, batch) || (k < |batch| && Taken(step, s, batch, k).remains == FoldBatch(step, s, batch))
    decreases |batch|
  {
    if batch == [] {
      k := 0;
    } else {
      var n := |batch| - 1;
      var before := batch[..n];
      k := PublishedExactly(step, s, before);
      HeldIsFold(step, s, before);
      forall i | 0 <= i < n ensures Taken(step, s, before, i) == Taken(step, s, batch, i) {
        assert before[..i] == batch[..i];
      }
      if k == n && Taken(step, s, batch, n).inPlace {
        k := n + 1;
      }
    }
  }

  // ---------- what a batch adds to the tables ----------

  function Sourced<E>(source: nat, events: seq<E>): (r: seq<(nat, E)>)
    ensures |r| == |events| && forall i :: 0 <= i < |r| ==> r[i] == (source, events[i])
  {
    seq(|events|, i requires 0 <= i < |events| => (source, events[i]))
  }

  /** The events that folding the rows over `s` produces, each with the row that caused it. */
  function Caused<S, C, E>(step: Transition<S, C, E>, s: S, rows: seq<ChangeRow<C>>): seq<(nat, E)>
    decreases rows
  {
    if rows == [] then []
    else
      var r := step(s, rows[0].change);
      Sourced(rows[0].id, r.events) + Caused(step, r.state, rows[1..])
  }

  lemma {:induction false} CausedSnoc<S, C, E>(step: Transition<S, C, E>, s: S, rows: seq<ChangeRow<C>>, row: ChangeRow<C>)
    ensures Caused(step, s, rows + [row])
         == Caused(step, s, rows) + Sourced(row.id, step(Fold(step, s, rows), row.change).events)
    decreases rows
  {
    if rows == [] {
      assert rows + [row] == [row];
      assert [row][1..] == [];
    } else {
      assert (rows + [row])[1..] == rows[1..] + [row];
      CausedSnoc(step, step(s, rows[0].change).state, rows[1..], row);
    }
  }

  function Pairs<E>(rows: seq<EventRow<E>>): (r: seq<(nat, E)>)
    ensures |r| == |rows| && forall i :: 0 <= i < |r| ==> r[i] == (rows[i].source, rows[i].event)
  {
    seq(|rows|, i requires 0 <= i < |rows| => (rows[i].source, rows[i].event))
  }

  lemma {:induction false} LogEventsPairs<E>(rows: seq<EventRow<E>>, source: nat, events: seq<E>, clock: nat)
    ensures Pairs(LogEvents(rows, source, events, clock)) == Pairs(rows) + Sourced(source, events)
    ensures rows <= LogEvents(rows, source, events, clock)
    decreases |events|
  {
    if events != [] {
      LogEventsPairs(rows, source, events[..|events| - 1], clock);
    }
  }

  /** The changes of a batch follow the old ones, in order and with larger identifiers. */
  ghost predicate ChangesFollow<C>(rows: seq<ChangeRow<C>>, batch: seq<C>, rows': seq<ChangeRow<C>>)
  {
    && rows <= rows' && |rows'| == |rows| + |batch|
    && (forall k :: 0 <= k < |batch| ==> rows'[|rows| + k].change == batch[k])
    && (Ascending(rows) ==> Ascending(rows'))
  }

  /**
   A logged batch: besides its changes the tables hold exactly the events the batch causes, each
   naming its own state change.
   */
  ghost predicate Appended<S, C, E>(
    step: Transition<S, C, E>, t: Tables<S, C, E>, s: S, batch: seq<C>, t': Tables<S, C, E>)
  {
    && ChangesFollow(t.changes, batch, t'.changes)
    && Fold(step, s, t'.changes[|t.changes|..]) == FoldBatch(step, s, batch)
    && t.events <= t'.events
    && Pairs(t'.events) == Pairs(t.events) + Caused(step, s, t'.changes[|t.changes|..])
    && t'.snapshots == t.snapshots
  }

  lemma {:induction false} BatchAppended<S, C, E>(
    step: Transition<S, C, E>, t: Tables<S, C, E>, s: S, batch: seq<C>, clock: nat)
    ensures Appended(step, t, s, batch, LogBatch(step, t, s, batch, clock))
    decreases |batch|
  {
    if batch != [] {
      var n := |batch| - 1;
      BatchAppended(step, t, s, batch[..n], clock);
      ChangeAppended(step, t, s, batch, LogBatch(step, t, s, batch[..n], clock), clock);
    }
  }

  lemma ChangeFollows<C>(rows: seq<ChangeRow<C>>, batch: seq<C>, rows': seq<ChangeRow<C>>, clock: nat)
    requires batch != [] && ChangesFollow(rows, batch[..|batch| - 1], rows')
    ensures ChangesFollow(rows, batch, rows' + [ChangeRow(NextId(LastId(rows'), clock), batch[|batch| - 1])])
  {
    var all := rows' + [ChangeRow(NextId(LastId(rows'), clock), batch[|batch| - 1])];
    assert forall i :: 0 <= i < |rows'| ==> all[i] == rows'[i];
    if Ascending(rows) {
      assert forall i :: 0 <= i < |rows'| ==> rows'[i].id <= LastId(rows');
    }
  }

  lemma FoldBatchLast<S, C, E>(step: Transition<S, C, E>, s: S, batch: seq<C>)
    requires batch != []
    ensures FoldBatch(step, s, batch) == step(FoldBatch(step, s, batch[..|batch| - 1]), batch[|batch| - 1]).state
  {
  }

  lemma ChangeAppended<S, C, E>(
    step: Transition<S, C, E>, t: Tables<S, C, E>, s: S, batch: seq<C>, t1: Tables<S, C, E>, clock: nat)
    requires batch != [] && Appended(step, t, s, batch[..|batch| - 1], t1)
    ensures var n := |batch| - 1;
      Appended(step, t, s, batch, LogChange(t1, batch[n], step(FoldBatch(step, s, batch[..n]), batch[n]).events, clock))
  {
    hide Ascending, NextId, LogEvents, LastId, Caused, FoldBatch;
    var n := |batch| - 1;
    FoldBatchLast(step, s, batch);
    var events := step(FoldBatch(step, s, batch[..n]), batch[n]).events;
    var row := ChangeRow(NextId(LastId(t1.changes), clock), batch[n]);
    var added := t1.changes[|t.changes|..];
    ChangeFollows(t.changes, batch, t1.changes, clock);
    hide ChangesFollow;
    assert |t.changes| <= |t1.changes| && (t1.changes + [row])[|t.changes|..] == added + [row];
    CausedSnoc(step, s, added, row);
    FoldConcat(step, s, added, [row]);
    assert [row][1..] == [];
    LogEventsPairs(t1.events, row.id, events, clock);
  }

  // ---------- a node ----------

  /** `saved` is the identifier in `saved_state`, absent until the first dispatch after a start. */
  datatype Node<S, C, E> = Node(
    tables: Tables<S, C, E>, state: S, saved: Option<nat>, qty: nat, snapshotQty: nat)

  function RunBatch<S, C, E>(step: Transition<S, C, E>, n: Node<S, C, E>, batch: seq<C>, clock: nat): Node<S, C, E>
  {
    var tables := LogBatch(step, n.tables, n.state, batch, clock);
    n.(tables := tables,
       state := RunObjects(step, n.state, batch).published,
       saved := if batch == [] then n.saved else Some(LastId(tables.changes)),
       qty := n.qty + |batch|)
  }

  /** `statechange_id` is unique among the snapshots, and a snapshot needs a dispatched change. */
  predicate CanSnapshot<S, C, E>(n: Node<S, C, E>)
  {
    n.saved.Some? && forall i :: 0 <= i < |n.tables.snapshots| ==> n.tables.snapshots[i].change != n.saved
  }

  function LastSnapshotId<S>(rows: seq<SnapshotRow<S>>): nat
  {
    if rows == [] then LOW else rows[|rows| - 1].id
  }

  /** `_maybe_snapshot`, where the snapshot can be taken. */
  function MaybeSnapshot<S, C, E>(n: Node<S, C, E>, clock: nat): Node<S, C, E>
    requires CanSnapshot(n)
  {
    if n.qty > n.snapshotQty + SNAPSHOT_STATE_CHANGES_COUNT then
      var row := SnapshotRow(NextId(LastSnapshotId(n.tables.snapshots), clock), n.saved, n.qty, n.state);
      n.(tables := n.tables.(snapshots := n.tables.snapshots + [row]), snapshotQty := n.qty)
    else n
  }

  /** `restore_or_init_snapshot`: the tables afterwards and the snapshot to start from. */
  function InitSnapshot<S, C, E>(t: Tables<S, C, E>, initial: S, clock: nat): (Tables<S, C, E>, SnapshotRow<S>)
  {
    var found := SnapshotBefore(t.snapshots, HIGH);
    if found.Some? then (t, found.value)
    else
      var row := SnapshotRow(NextId(LastSnapshotId(t.snapshots), clock), None, 0, initial);
      (t.(snapshots := t.snapshots + [row]), row)
  }

  /** `_initialize_wal`: only the tables survive. */
  function Restart<S, C, E>(step: Transition<S, C, E>, t: Tables<S, C, E>, initial: S, clock: nat): Node<S, C, E>
  {
    var (tables, row) := InitSnapshot(t, initial, clock);
    var rows := Between(tables.changes, StartOf(row), HIGH);
    Node(tables, Fold(step, row.state, rows), None, row.qty + |rows|, row.qty)
  }

  datatype Action<S, C> =
    | Commit(batch: seq<C>, clock: nat)   // a batch that goes through
    | Abort(batch: seq<C>)                // a batch that fails at any point
    | Snapshot(clock: nat)
    | Crash(initial: S, clock: nat)       // at any point, and the restart after it

  predicate Possible<S, C, E>(step: Transition<S, C, E>, n: Node<S, C, E>, a: Action<S, C>)
  {
    match a
    case Commit(batch, clock) => LastId(LogBatch(step, n.tables, n.state, batch, clock).changes) <= HIGH
    case Snapshot(_) => CanSnapshot(n)
    case _ => true
  }

  function Act<S, C, E>(step: Transition<S, C, E>, n: Node<S, C, E>, a: Action<S, C>): Node<S, C, E>
    requires Possible(step, n, a)
  {
    match a
    case Commit(batch, clock) => RunBatch(step, n, batch, clock)
    case Abort(_) => n
    case Snapshot(clock) => MaybeSnapshot(n, clock)
    case Crash(initial, clock) => Restart(step, n.tables, initial, clock)
  }

  predicate IsHistory<S, C, E>(step: Transition<S, C, E>, n: Node<S, C, E>, actions: seq<Action<S, C>>)
    decreases actions
  {
    actions == [] || (Possible(step, n, actions[0]) && IsHistory(step, Act(step, n, actions[0]), actions[1..]))
  }

  function After<S, C, E>(step: Transition<S, C, E>, n: Node<S, C, E>, actions: seq<Action<S, C>>): Node<S, C, E>
    requires IsHistory(step, n, actions)
    decreases actions
  {
    if actions == [] then n else After(step, Act(step, n, actions[0]), actions[1..])
  }

  // ---------- what every run keeps ----------

  /** The tables define the published state, and the saved identifier is the newest one. */
  ghost predicate InStep<S, C, E>(step: Transition<S, C, E>, initial: S, n: Node<S, C, E>)
  {
    && Recorded(step, initial, n.tables)
    && n.state == Fold(step, initial, n.tables.changes)
    && (n.saved.Some? ==> n.tables.changes != [] && n.saved.value == LastId(n.tables.changes))
  }

  /** And a restart will read all of the changes. */
  ghost predicate Sound<S, C, E>(step: Transition<S, C, E>, initial: S, n: Node<S, C, E>)
  {
    InStep(step, initial, n) && LastId(n.tables.changes) <= HIGH
  }

  lemma WholeLog<C>(rows: seq<ChangeRow<C>>, last: nat)
    requires Ascending(rows) && LastId(rows) <= last
    ensures Between(rows, LOW, last) == rows
  {
    BetweenPrefix(rows, |rows|, last);
    assert rows[..|rows|] == rows;
  }

  /** Later changes do not touch what a snapshot stands for. */
  lemma FaithfulGrows<S, C, E>(
    step: Transition<S, C, E>, initial: S, changes: seq<ChangeRow<C>>, changes': seq<ChangeRow<C>>, row: SnapshotRow<S>)
    requires Ascending(changes') && changes <= changes' && Ascending(changes)
    requires Faithful(step, initial, changes, row)
    ensures Faithful(step, initial, changes', row)
  {
    if row.change.Some? {
      var i :| 0 <= i < |changes| && changes[i].id == row.change.value;
      assert changes'[i].id == row.change.value;
      BetweenLast(changes, i);
      BetweenLast(changes', i);
      assert changes'[..i + 1] == changes[..i + 1];
    } else {
      BetweenNone(changes, LOW, LOW);
      BetweenNone(changes', LOW, LOW);
    }
  }

  /** A committed batch keeps node and tables in step if and only if its fold is what was published. */
  lemma CommitInStep<S, C, E>(
    step: Transition<S, C, E>, initial: S, n: Node<S, C, E>, batch: seq<C>, clock: nat)
    requires InStep(step, initial, n)
    ensures InStep(step, initial, RunBatch(step, n, batch, clock))
       <==> RunObjects(step, n.state, batch).published == FoldBatch(step, n.state, batch)
  {
    hide Fold, LogBatch, FoldBatch, RunObjects, Faithful, Ascending, Caused, Pairs;
    var t, t' := n.tables, LogBatch(step, n.tables, n.state, batch, clock);
    BatchAppended(step, t, n.state, batch, clock);
    assert t'.changes == t.changes + t'.changes[|t.changes|..];
    FoldConcat(step, initial, t.changes, t'.changes[|t.changes|..]);
    forall row | row in t'.snapshots ensures Faithful(step, initial, t'.changes, row) {
      FaithfulGrows(step, initial, t.changes, t'.changes, row);
    }
  }

  lemma SnapshotInStep<S, C, E>(step: Transition<S, C, E>, initial: S, n: Node<S, C, E>, clock: nat)
    requires InStep(step, initial, n) && CanSnapshot(n)
    ensures InStep(step, initial, MaybeSnapshot(n, clock))
  {
    var n' := MaybeSnapshot(n, clock);
    if n.qty > n.snapshotQty + SNAPSHOT_STATE_CHANGES_COUNT {
      var t, last := n.tables, |n.tables.changes| - 1;
      var row := n'.tables.snapshots[|t.snapshots|];
      assert t.changes[last].id == n.saved.value;
      WholeLog(t.changes, n.saved.value);
      assert Faithful(step, initial, t.changes, row);
      forall i | 0 < i < |t.snapshots| ensures t.snapshots[i].change.value < n.saved.value {
        assert Faithful(step, initial, t.changes, t.snapshots[i]);
        assert t.snapshots[i].change != n.saved;
      }
    }
  }

  /** The snapshot a restart starts from. */
  function Newest<S, C, E>(t: Tables<S, C, E>): SnapshotRow<S>
    requires t.snapshots != []
  {
    t.snapshots[|t.snapshots| - 1]
  }

  lemma StartsFromNewest<S, C, E>(step: Transition<S, C, E>, initial: S, t: Tables<S, C, E>)
    requires Recorded(step, initial, t) && LastId(t.changes) <= HIGH
    ensures SnapshotBefore(t.snapshots, HIGH) == Some(Newest(t))
  {
    hide Fold, Between;
    assert Newest(t) in t.snapshots && Faithful(step, initial, t.changes, Newest(t));
    if Newest(t).change.Some? {
      LoggedBelowLast(t.changes, Newest(t).change.value);
    }
  }

  /** Restarting loses nothing: the recovered state is the state the log defines. */
  lemma RestartSound<S, C, E>(step: Transition<S, C, E>, initial: S, t: Tables<S, C, E>, unused: S, clock: nat)
    requires Recorded(step, initial, t) && LastId(t.changes) <= HIGH && Settled(step, t.changes, Newest(t))
    ensures Sound(step, initial, Restart(step, t, unused, clock))
    ensures Restart(step, t, unused, clock).tables == t
  {
    StartsFromNewest(step, initial, t);
    RestoreSettled(step, initial, t, HIGH);
    WholeLog(t.changes, HIGH);
  }

  /** The inclusive range that starts at the last change holds that change alone. */
  lemma ReplayLast<S, C, E>(step: Transition<S, C, E>, s: S, rows: seq<ChangeRow<C>>, last: nat)
    requires rows != [] && Ascending(rows) && LastId(rows) <= last
    ensures Fold(step, s, Between(rows, LastId(rows), last)) == step(s, rows[|rows| - 1].change).state
  {
    var i := |rows| - 1;
    BetweenHead(rows, i, last);
    BetweenNone(rows, rows[i].id + 1, last);
    assert [rows[i]] + [] == [rows[i]] && [rows[i]][1..] == [];
  }

  /** With nothing logged since the newest snapshot, that condition is also necessary. */
  lemma RestartExactly<S, C, E>(step: Transition<S, C, E>, initial: S, t: Tables<S, C, E>, unused: S, clock: nat)
    requires Recorded(step, initial, t) && LastId(t.changes) <= HIGH
    requires t.changes != [] && Newest(t).change == Some(LastId(t.changes))
    ensures Sound(step, initial, Restart(step, t, unused, clock)) <==> Settled(step, t.changes, Newest(t))
  {
    StartsFromNewest(step, initial, t);
    if Settled(step, t.changes, Newest(t)) {
      RestartSound(step, initial, t, unused, clock);
    } else {
      assert Newest(t) in t.snapshots && Faithful(step, initial, t.changes, Newest(t));
      WholeLog(t.changes, LastId(t.changes));
      ReplayLast(step, Newest(t).state, t.changes, HIGH);
      hide Fold, Between;
    }
  }

  /** The first start of all: the initial state is kept as the first snapshot. */
  lemma FirstStartSound<S, C, E>(step: Transition<S, C, E>, initial: S, clock: nat)
    ensures Sound(step, initial, Restart(step, Tables([], [], []), initial, clock))
  {
  }

  /** What a node relies on: batches that work in place, and settled snapshots to restart from. */
  ghost predicate Careful<S, C, E>(step: Transition<S, C, E>, n: Node<S, C, E>, a: Action<S, C>)
  {
    match a
    case Commit(batch, _) => BatchInPlace(step, n.state, batch)
    case Crash(_, _) => n.tables.snapshots != [] ==> Settled(step, n.tables.changes, Newest(n.tables))
    case _ => true
  }

  lemma ActionSound<S, C, E>(step: Transition<S, C, E>, initial: S, n: Node<S, C, E>, a: Action<S, C>)
    requires Sound(step, initial, n) && Possible(step, n, a) && Careful(step, n, a)
    ensures Sound(step, initial, Act(step, n, a))
  {
    match a
    case Commit(batch, clock) =>
      var k := PublishedExactly(step, n.state, batch);
      CommitInStep(step, initial, n, batch, clock);
    case Abort(_) =>
    case Snapshot(clock) => SnapshotInStep(step, initial, n, clock);
    case Crash(unused, clock) => RestartSound(step, initial, n.tables, unused, clock);
  }

  ghost predicate CarefulHistory<S, C, E>(step: Transition<S, C, E>, n: Node<S, C, E>, actions: seq<Action<S, C>>)
    requires IsHistory(step, n, actions)
    decreases actions
  {
    actions == [] || (Careful(step, n, actions[0]) && CarefulHistory(step, Act(step, n, actions[0]), actions[1..]))
  }

  /**
   Over any number of batches, failures, snapshots and restarts the published state is the fold of
   the whole log over the initial state, and every earlier state can be restored from a settled
   snapshot.
   */
  lemma {:induction false} HistorySound<S, C, E>(
    step: Transition<S, C, E>, initial: S, n: Node<S, C, E>, actions: seq<Action<S, C>>, target: nat)
    requires Sound(step, initial, n) && IsHistory(step, n, actions) && CarefulHistory(step, n, actions)
    ensures Sound(step, initial, After(step, n, actions))
    ensures var t := After(step, n, actions).tables; var row := SnapshotBefore(t.snapshots, target);
      (row.Some? ==> Settled(step, t.changes, row.value)) ==>
        Restore(step, t, target) == Some(Replayed(step, initial, t, target))
    decreases actions
  {
    if actions != [] {
      ActionSound(step, initial, n, actions[0]);
      HistorySound(step, initial, Act(step, n, actions[0]), actions[1..], target);
    } else {
      var row := SnapshotBefore(n.tables.snapshots, target);
      if row.Some? ==> Settled(step, n.tables.changes, row.value) {
        RestoreSettled(step, initial, n.tables, target);
      }
    }
  }

  /** The requirement the design states makes every restart careful. */
  lemma IdempotentIsCareful<S(!new), C(!new), E>(step: Transition<S, C, E>, initial: S, n: Node<S, C, E>, a: Action<S, C>)
    requires Idempotent(step) && Sound(step, initial, n) && a.Crash?
    ensures Careful(step, n, a)
  {
    assert Newest(n.tables) in n.tables.snapshots && Faithful(step, initial, n.tables.changes, Newest(n.tables));
    IdempotentSettles(step, initial, n.tables.changes, Newest(n.tables));
  }

  lemma InclusiveCount<C>(rows: seq<ChangeRow<C>>, k: nat, last: nat)
    requires Ascending(rows) && Logged(rows, k) && k <= last
    ensures |Between(rows, LOW, last)| + 1 == |Between(rows, LOW, k)| + |Between(rows, k, last)|
  {
    var i :| 0 <= i < |rows| && rows[i].id == k;
    BetweenHead(rows, i, last);
    BetweenSplit(rows, k, last);
  }

  lemma LoggedBelowLast<C>(rows: seq<ChangeRow<C>>, k: nat)
    requires Ascending(rows) && Logged(rows, k)
    ensures k <= LastId(rows)
  {
  }

  /** The counter of applied changes counts the snapshot's last change twice after a restart. */
  lemma RestartCountsTwice<S, C, E>(
    step: Transition<S, C, E>, initial: S, t: Tables<S, C, E>, unused: S, clock: nat, drift: int)
    requires Recorded(step, initial, t) && LastId(t.changes) <= HIGH
    requires var row := t.snapshots[|t.snapshots| - 1];
      row.qty == |Between(t.changes, LOW, StartOf(row))| + drift
    ensures Restart(step, t, unused, clock).qty
         == |t.changes| + drift + if |t.snapshots| > 1 then 1 else 0
  {
    hide Fold, Between, Ascending, Logged;
    var row := t.snapshots[|t.snapshots| - 1];
    assert row in t.snapshots && Faithful(step, initial, t.changes, row);
    WholeLog(t.changes, HIGH);
    if row.change.Some? {
      LoggedBelowLast(t.changes, row.change.value);
      InclusiveCount(t.changes, row.change.value, HIGH);
    } else {
      assert Between(t.changes, LOW, LOW) == [] by {
        assert forall r :: r in t.changes ==> r.id > LOW by { LowIsBelow(t.changes); }
        BetweenNone(t.changes, LOW, LOW);
      }
    }
    assert SnapshotBefore(t.snapshots, HIGH) == Some(row);
  }

  lemma LowIsBelow<C>(rows: seq<ChangeRow<C>>)
    requires Ascending(rows)
    ensures forall r :: r in rows ==> r.id > LOW
  {
  }
}
