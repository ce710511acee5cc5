/**
 The write-ahead log as the source runs it: a database connection with transactions, a dispatcher
 that works on a clone of the state, and the log object that publishes the clone.
 */
module WriteAheadLog {
  import opened LockCodec
  import opened StateLog
  import opened LogRuns

  /** A state as readers hold it: an object that can be shared. */
  class StateObject<S> {
    var value: S

    constructor (v: S)
      ensures value == v
    {
      value := v;
    }
  }

  /** `committed` is what a crash or a rollback leaves. */
  class Database<S, C, E> {
    var tables: Tables<S, C, E>
    var committed: Tables<S, C, E>
    var inTransaction: bool

    ghost predicate Idle()
      reads this
    {
      !inTransaction && committed == tables
    }

    constructor (t: Tables<S, C, E>)
      ensures Idle() && tables == t
    {
      tables, committed, inTransaction := t, t, false;
    }

    method Begin()
      requires Idle()
      modifies this
      ensures inTransaction && tables == old(tables) && committed == old(tables)
    {
      inTransaction := true;
    }

    method Commit()
      requires inTransaction
      modifies this
      ensures Idle() && tables == old(tables)
    {
      committed := tables;
      inTransaction := false;
    }

    method Rollback()
      requires inTransaction
      modifies this
      ensures Idle() && tables == old(committed)
    {
      tables := committed;
      inTransaction := false;
    }

    method WriteStateChange(c: C, clock: nat) returns (id: nat)
      modifies `tables
      ensures tables == old(tables).(changes := old(tables).changes + [ChangeRow(id, c)])
      ensures id == NextId(LastId(old(tables).changes), clock)
    {
      id := NextId(LastId(tables.changes), clock);
      tables := tables.(changes := tables.changes + [ChangeRow(id, c)]);
    }

    method WriteEvents(source: nat, events: seq<E>, clock: nat)
      modifies `tables
      ensures tables == old(tables).(events := LogEvents(old(tables).events, source, events, clock))
    {
      for i := 0 to |events|
        invariant tables == old(tables).(events := LogEvents(old(tables).events, source, events[..i], clock))
      {
        assert events[..i + 1][..i] == events[..i];
        var id := NextId(LastEventId(tables.events), clock);
        tables := tables.(events := tables.events + [EventRow(id, source, events[i])]);
      }
      assert events[..|events|] == events;
    }

    /** The `UNIQUE` column refuses a second snapshot for the same state change. */
    method WriteStateSnapshot(state: S, change: nat, qty: nat, clock: nat) returns (ok: bool)
      requires Idle()
      modifies this
      ensures Idle()
      ensures ok <==> forall i :: 0 <= i < |old(tables).snapshots| ==> old(tables).snapshots[i].change != Some(change)
      ensures tables == if !ok then old(tables) else old(tables).(snapshots := old(tables).snapshots
        + [SnapshotRow(NextId(LastSnapshotId(old(tables).snapshots), clock), Some(change), qty, state)])
    {
      var i := 0;
      while i < |tables.snapshots| && tables.snapshots[i].change != Some(change)
        invariant 0 <= i <= |tables.snapshots|
        invariant forall k :: 0 <= k < i ==> tables.snapshots[k].change != Some(change)
      {
        i := i + 1;
      }
      ok := i == |tables.snapshots|;
      if ok {
        var id := NextId(LastSnapshotId(tables.snapshots), clock);
        tables := tables.(snapshots := tables.snapshots + [SnapshotRow(id, Some(change), qty, state)]);
        committed := tables;
      }
    }

    /** `restore_or_init_snapshot`. */
    method RestoreOrInitSnapshot(initial: S, clock: nat) returns (row: SnapshotRow<S>)
      requires Idle()
      modifies this
      ensures Idle() && (tables, row) == InitSnapshot(old(tables), initial, clock)
    {
      var found := SnapshotBefore(tables.snapshots, HIGH);
      if found.Some? {
        row := found.value;
      } else {
        row := SnapshotRow(NextId(LastSnapshotId(tables.snapshots), clock), None, 0, initial);
        tables := tables.(snapshots := tables.snapshots + [row]);
        committed := tables;
      }
    }
  }

  /** `replay_state_changes`; the returned state is used whether or not it is the same object. */
  method ReplayStateChanges<S, C, E>(
    step: Transition<S, C, E>, state: S, changes: seq<ChangeRow<C>>, first: nat, last: nat)
    returns (s: S, applied: nat)
    ensures s == Fold(step, state, Between(changes, first, last))
    ensures applied == |Between(changes, first, last)|
  {
    var rows := Between(changes, first, last);
    s := state;
    for i := 0 to |rows|
      invariant s == Fold(step, state, rows[..i])
    {
      assert rows[..i + 1] == rows[..i] + [rows[i]];
      assert [rows[i]][1..] == [];
      FoldConcat(step, state, rows[..i], [rows[i]]);
      s := step(s, rows[i].change).state;
    }
    assert rows[..|rows|] == rows;
    applied := |rows|;
  }

  /** Where a batch goes wrong, if it does. */
  datatype Fault =
    | NoFault
    | InTransition(change: nat)
    | InWrite(change: nat, eventsWritten: nat)
    | InCommit

  class Dispatcher<S, C, E> {
    var state: StateObject<S>
    const db: Database<S, C, E>
    const step: Transition<S, C, E>
    var lastId: Option<nat>

    constructor (state: StateObject<S>, db: Database<S, C, E>, step: Transition<S, C, E>)
      ensures this.state == state && this.db == db && this.step == step && lastId == None
    {
      this.state, this.db, this.step, lastId := state, db, step, None;
    }

    /** `fault` says whether this very dispatch fails. */
    method Dispatch(c: C, clock: nat, fault: Fault) returns (ok: bool)
      requires !fault.InCommit?
      modifies this, state, db`tables
      ensures ok <==> fault.NoFault?
      ensures ok ==> var r := step(old(state.value), c);
        db.tables == LogChange(old(db.tables), c, r.events, clock)
        && lastId == Some(LastId(db.tables.changes))
        && state.value == r.state
        && (if r.inPlace then state == old(state)
            else fresh(state) && old(state).value == r.remains)
      ensures state == old(state) || fresh(state)
    {
      if fault.InTransition? { return false; }
      var r := step(state.value, c);
      if r.inPlace {
        state.value := r.state;
      } else {
        state.value := r.remains;
        state := new StateObject(r.state);
      }
      var id := db.WriteStateChange(c, clock);
      if fault.InWrite? {
        var n := if fault.eventsWritten < |r.events| then fault.eventsWritten else |r.events|;
        db.WriteEvents(id, r.events[..n], clock);
        return false;
      }
      db.WriteEvents(id, r.events, clock);
      lastId := Some(id);
      return true;
    }
  }

  datatype SavedState<S> = SavedState(change: nat, state: StateObject<S>)

  predicate Strikes(fault: Fault, size: nat)
  {
    match fault
    case NoFault => false
    case InTransition(k) => k < size
    case InWrite(k, _) => k < size
    case InCommit => true
  }

  class Log<S, C, E> {
    var state: StateObject<S>
    const db: Database<S, C, E>
    const step: Transition<S, C, E>
    var saved: Option<SavedState<S>>

    constructor (state: StateObject<S>, db: Database<S, C, E>, step: Transition<S, C, E>)
      ensures this.state == state && this.db == db && this.step == step && saved == None
    {
      this.state, this.db, this.step, saved := state, db, step, None;
    }

    /** The object as a `Node`; the counters belong to its caller. */
    ghost function View(qty: nat, snapshotQty: nat): Node<S, C, E>
      reads this, state, db
    {
      Node(db.tables, state.value, if saved.Some? then Some(saved.value.change) else None, qty, snapshotQty)
    }

    /**
     A batch inside `process_state_change_atomically`. It goes through as a whole or leaves no
     trace, wherever it fails; and the object that readers already hold is never written to.
     */
    method Process(batch: seq<C>, clock: nat, fault: Fault, ghost qty: nat, ghost snapshotQty: nat) returns (ok: bool)
      requires db.Idle()
      modifies this, db
      ensures db.Idle()
      ensures ok <==> !Strikes(fault, |batch|)
      ensures ok ==> View(qty + |batch|, snapshotQty) == RunBatch(step, old(View(qty, snapshotQty)), batch, clock)
      ensures ok && batch != [] ==> saved.Some? && saved.value.state == state
      ensures !ok ==> db.tables == old(db.tables) && state == old(state) && saved == old(saved)
      ensures old(state).value == old(state.value)
    {
      hide LogChange, LastId, CanSnapshot;
      ghost var t0, s0 := db.tables, state.value;
      var clone := new StateObject(state.value);
      db.Begin();
      var dispatcher := new Dispatcher(clone, db, step);
      ok := true;
      var k := 0;
      while ok && k < |batch|
        invariant 0 <= k <= |batch| && fresh(dispatcher) && fresh(dispatcher.state) && fresh(clone)
        invariant dispatcher.db == db && dispatcher.step == step && dispatcher.state != state && clone != state
        invariant db.inTransaction && db.committed == t0 && state == old(state) && saved == old(saved)
        invariant state.value == s0
        invariant !ok ==> Strikes(fault, |batch|)
        invariant ok ==> !Strikes(fault, k) || fault.InCommit?
        invariant ok ==> Attained(dispatcher, clone, t0, s0, batch[..k], clock)
        decreases |batch| - k, ok
      {
        assert batch[..k + 1][..k] == batch[..k];
        var here := if (fault.InTransition? || fault.InWrite?) && fault.change == k then fault else NoFault;
        HeldIsFold(step, s0, batch[..k]);
        ok := dispatcher.Dispatch(batch[k], clock, here);
        k := k + 1;
      }
      ok := ok && !fault.InCommit?;
      if ok {
        assert batch[..k] == batch;
        db.Commit();
        state := clone;
        if dispatcher.lastId.Some? {
          saved := Some(SavedState(dispatcher.lastId.value, state));
        }
      } else {
        db.Rollback();
      }
    }

    /** What the loop has reached after a part of the batch. */
    ghost predicate Attained(
      d: Dispatcher<S, C, E>, clone: StateObject<S>, t0: Tables<S, C, E>, s0: S, done: seq<C>, clock: nat)
      reads this, d, d.state, clone, db
    {
      var o := RunObjects(step, s0, done);
      && db.tables == LogBatch(step, t0, s0, done, clock)
      && d.state.value == o.held && clone.value == o.published
      && (d.state == clone <==> o.same)
      && d.lastId == (if done == [] then None else Some(LastId(db.tables.changes)))
    }

    /** Fails when nothing was dispatched since the start, or the change already has a snapshot. */
    method Snapshot(qty: nat, clock: nat) returns (ok: bool)
      requires db.Idle()
      modifies db
      ensures db.Idle()
      ensures ok <==> CanSnapshot(old(View(qty, qty)))
      ensures db.tables == if !ok then old(db.tables) else old(db.tables).(snapshots := old(db.tables).snapshots
        + [SnapshotRow(NextId(LastSnapshotId(old(db.tables).snapshots), clock), Some(saved.value.change), qty, state.value)])
    {
      if saved.None? { return false; }
      ok := db.WriteStateSnapshot(state.value, saved.value.change, qty, clock);
    }
  }

  /** A snapshot if one is due; false if it is due and cannot be taken. */
  function Counted<S, C, E>(n: Node<S, C, E>, clock: nat): (bool, Node<S, C, E>)
  {
    if n.qty <= n.snapshotQty + SNAPSHOT_STATE_CHANGES_COUNT then (true, n)
    else if CanSnapshot(n) then (true, LogRuns.MaybeSnapshot(n, clock))
    else (false, n)
  }

  /** The part of the service that keeps the two counters (`state_change_qty` and `..._snapshot`). */
  class Service<S, C, E> {
    const log: Log<S, C, E>
    var qty: nat
    var snapshotQty: nat

    ghost function View(): Node<S, C, E>
      reads this, log, log.state, log.db
    {
      log.View(qty, snapshotQty)
    }

    /** `_initialize_wal`. */
    constructor (db: Database<S, C, E>, step: Transition<S, C, E>, initial: S, clock: nat)
      requires db.Idle()
      modifies db
      ensures log.db == db && log.step == step && db.Idle() && fresh(log) && fresh(log.state)
      ensures View() == Restart(step, old(db.tables), initial, clock)
    {
      var row := db.RestoreOrInitSnapshot(initial, clock);
      var start := if row.change.Some? then row.change.value else LOW;
      var s, applied := ReplayStateChanges(step, row.state, db.tables.changes, start, HIGH);
      var state := new StateObject(s);
      log := new Log(state, db, step);
      snapshotQty := row.qty;
      qty := row.qty + applied;
    }

    method MaybeSnapshot(clock: nat) returns (ok: bool)
      requires log.db.Idle()
      modifies this, log.db
      ensures log.db.Idle()
      ensures (ok, View()) == Counted(old(View()), clock)
    {
      ok := true;
      if qty > snapshotQty + SNAPSHOT_STATE_CHANGES_COUNT {
        ok := log.Snapshot(qty, clock);
        if ok { snapshotQty := qty; }
      }
    }

    /** `_trigger_state_change_effects`, after the log has taken `applied` changes. */
    method CountChanges(applied: nat, clock: nat) returns (ok: bool)
      requires log.db.Idle()
      modifies this, log.db
      ensures log.db.Idle()
      ensures (ok, View()) == Counted(old(log.View(qty + applied, snapshotQty)), clock)
    {
      qty := qty + applied;
      ok := MaybeSnapshot(clock);
    }

    /** `handle_state_changes`. */
    method HandleStateChanges(batch: seq<C>, clock: nat, fault: Fault) returns (ok: bool)
      requires log.db.Idle()
      modifies this, log, log.db
      ensures log.db.Idle()
      ensures Strikes(fault, |batch|) ==> !ok && View() == old(View())
      ensures !Strikes(fault, |batch|) ==>
        (ok, View()) == Counted(RunBatch(log.step, old(View()), batch, clock), clock)
    {
      ok := log.Process(batch, clock, fault, qty, snapshotQty);
      if ok { ok := CountChanges(|batch|, clock); }
    }
  }
}
