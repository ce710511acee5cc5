/**
 The tables of the write-ahead log and what can be read back from them: recovering from a snapshot
 and the state changes logged since is the same as folding the whole log over the initial state.
 */
module StateLog {
  import opened LockCodec

  /** `LOW_STATECHANGE_ULID`; every identifier handed out is larger. */
  const LOW := 0

  datatype ChangeRow<C> = ChangeRow(id: nat, change: C)
  datatype EventRow<E> = EventRow(id: nat, source: nat, event: E)

  /** `change` is the last change the snapshot has applied, NULL for the first snapshot. */
  datatype SnapshotRow<S> = SnapshotRow(id: nat, change: Option<nat>, qty: nat, state: S)

  datatype Tables<S, C, E> = Tables(
    changes: seq<ChangeRow<C>>, events: seq<EventRow<E>>, snapshots: seq<SnapshotRow<S>>)

  /**
   What a transition does with the state object it is handed. Either it writes `state` into that
   object and returns it, or it returns another object and leaves `remains` in the first one.
   */
  datatype Iteration<S, E> = Iteration(state: S, events: seq<E>, inPlace: bool, remains: S)

  type Transition<!S, !C, !E> = (S, C) -> Iteration<S, E>

  // ---------- folding ----------

  function Fold<S, C, E>(step: Transition<S, C, E>, s: S, rows: seq<ChangeRow<C>>): S
    decreases rows
  {
    if rows == [] then s else Fold(step, step(s, rows[0].change).state, rows[1..])
  }

  lemma {:induction false} FoldConcat<S, C, E>(
    step: Transition<S, C, E>, s: S, a: seq<ChangeRow<C>>, b: seq<ChangeRow<C>>)
    ensures Fold(step, s, a + b) == Fold(step, Fold(step, s, a), b)
    decreases a
  {
    if a == [] {
      assert a + b == b;
    } else {
      assert (a + b)[1..] == a[1..] + b;
      FoldConcat(step, step(s, a[0].change).state, a[1..], b);
    }
  }

  /** Applying a change to a state that has just taken it changes nothing. */
  ghost predicate Idempotent<S(!new), C(!new), E>(step: Transition<S, C, E>)
  {
    forall s: S, c: C :: step(step(s, c).state, c).state == step(s, c).state
  }

  // ---------- queries ----------

  /** `get_statechanges_records_by_range`: both bounds belong to the range. */
  function Between<C>(rows: seq<ChangeRow<C>>, first: nat, last: nat): seq<ChangeRow<C>>
  {
    if rows == [] then []
    else
      var rest := Between(rows[1..], first, last);
      if first <= rows[0].id <= last then [rows[0]] + rest else rest
  }

  predicate Usable<S>(row: SnapshotRow<S>, target: nat)
  {
    row.change.None? || row.change.value <= target
  }

  /** `get_snapshot_before_state_change`: the newest usable row. */
  function SnapshotBefore<S>(rows: seq<SnapshotRow<S>>, target: nat): (r: Option<SnapshotRow<S>>)
    ensures r.Some? ==> r.value in rows && Usable(r.value, target)
    ensures r.None? ==> forall row :: row in rows ==> !Usable(row, target)
  {
    if rows == [] then None
    else
      var last := rows[|rows| - 1];
      assert rows == rows[..|rows| - 1] + [last];
      if Usable(last, target) then Some(last) else SnapshotBefore(rows[..|rows| - 1], target)
  }

  /** The row found is usable, and no newer one is. */
  lemma {:induction false} NewestUsable<S>(rows: seq<SnapshotRow<S>>, target: nat) returns (i: nat)
    requires SnapshotBefore(rows, target).Some?
    ensures i < |rows| && SnapshotBefore(rows, target) == Some(rows[i]) && Usable(rows[i], target)
    ensures forall j :: i < j < |rows| ==> !Usable(rows[j], target)
  {
    var n := |rows| - 1;
    if Usable(rows[n], target) {
      i := n;
    } else {
      i := NewestUsable(rows[..n], target);
      forall j | i < j < n ensures !Usable(rows[j], target) {
        assert rows[..n][j] == rows[j];
      }
    }
  }

  function StartOf<S>(row: SnapshotRow<S>): nat
  {
    if row.change.Some? then row.change.value else LOW
  }

  /** `restore_state`. */
  function Restore<S, C, E>(step: Transition<S, C, E>, t: Tables<S, C, E>, target: nat): Option<S>
  {
    var row := SnapshotBefore(t.snapshots, target);
    if row.None? then None
    else Some(Fold(step, row.value.state, Between(t.changes, StartOf(row.value), target)))
  }

  // ---------- well-recorded tables ----------

  ghost predicate Ascending<C>(rows: seq<ChangeRow<C>>)
  {
    (forall row :: row in rows ==> row.id > LOW)
    && forall i, j :: 0 <= i < j < |rows| ==> rows[i].id < rows[j].id
  }

  /** The snapshots follow the log: the first has applied nothing, each later one has applied more. */
  ghost predicate SnapshotsAscend<S>(rows: seq<SnapshotRow<S>>)
  {
    (forall i :: 0 <= i < |rows| ==> (rows[i].change.None? <==> i == 0))
    && forall i, j :: 0 < i < j < |rows| ==> rows[i].change.value < rows[j].change.value
  }

  ghost predicate Logged<C>(changes: seq<ChangeRow<C>>, id: nat)
  {
    exists i :: 0 <= i < |changes| && changes[i].id == id
  }

  /** A snapshot holds the state that folding the log up to its change gives. */
  ghost predicate Faithful<S, C, E>(
    step: Transition<S, C, E>, initial: S, changes: seq<ChangeRow<C>>, row: SnapshotRow<S>)
  {
    row.state == Fold(step, initial, Between(changes, LOW, StartOf(row)))
    && (row.change.Some? ==> Logged(changes, row.change.value))
  }

  ghost predicate Recorded<S, C, E>(step: Transition<S, C, E>, initial: S, t: Tables<S, C, E>)
  {
    && Ascending(t.changes)
    && SnapshotsAscend(t.snapshots)
    && t.snapshots != []
    && forall row :: row in t.snapshots ==> Faithful(step, initial, t.changes, row)
  }

  /** The state that the log defines for `target`. */
  function Replayed<S, C, E>(step: Transition<S, C, E>, initial: S, t: Tables<S, C, E>, target: nat): S
  {
    Fold(step, initial, Between(t.changes, LOW, target))
  }

  // ---------- ranges are slices ----------

  lemma {:induction false} BetweenNone<C>(rows: seq<ChangeRow<C>>, first: nat, last: nat)
    requires forall row :: row in rows ==> !(first <= row.id <= last)
    ensures Between(rows, first, last) == []
  {
    if rows != [] {
      assert rows == [rows[0]] + rows[1..];
      BetweenNone(rows[1..], first, last);
    }
  }

  lemma AscendingTail<C>(rows: seq<ChangeRow<C>>)
    requires Ascending(rows) && rows != []
    ensures Ascending(rows[1..])
  {
    assert forall i :: 0 <= i < |rows[1..]| ==> rows[1..][i] == rows[i + 1];
  }

  /** Splitting a range behind a logged change `k`; the parts share nothing. */
  lemma {:induction false} BetweenSplit<C>(rows: seq<ChangeRow<C>>, k: nat, last: nat)
    requires Ascending(rows) && k <= last
    ensures Between(rows, LOW, last) == Between(rows, LOW, k) + Between(rows, k + 1, last)
  {
    if rows != [] {
      AscendingTail(rows);
      BetweenSplit(rows[1..], k, last);
      if rows[0].id > k {
        assert forall row :: row in rows ==> row.id > k by {
          assert forall i :: 0 <= i < |rows| ==> rows[i].id >= rows[0].id;
        }
        BetweenNone(rows, LOW, k);
      }
    }
  }

  /** The inclusive range that starts at a logged change starts with that change. */
  lemma {:induction false} BetweenHead<C>(rows: seq<ChangeRow<C>>, i: nat, last: nat)
    requires Ascending(rows) && i < |rows| && rows[i].id <= last
    ensures Between(rows, rows[i].id, last) == [rows[i]] + Between(rows, rows[i].id + 1, last)
  {
    if i == 0 {
      assert forall j :: 0 < j < |rows| ==> rows[j].id > rows[0].id;
      BetweenNextFirst(rows[1..], rows[0].id, last);
    } else {
      AscendingTail(rows);
      BetweenHead(rows[1..], i - 1, last);
    }
  }

  lemma {:induction false} BetweenNextFirst<C>(rows: seq<ChangeRow<C>>, k: nat, last: nat)
    requires forall row :: row in rows ==> row.id > k
    ensures Between(rows, k, last) == Between(rows, k + 1, last)
  {
    if rows != [] {
      BetweenNextFirst(rows[1..], k, last);
    }
  }

  /** The last change of the prefix that ends at a logged change is that change. */
  lemma BetweenLast<C>(rows: seq<ChangeRow<C>>, i: nat)
    requires Ascending(rows) && i < |rows|
    ensures Between(rows, LOW, rows[i].id) == rows[..i + 1]
  {
    BetweenPrefix(rows, i + 1, rows[i].id);
  }

  lemma {:induction false} BetweenPrefix<C>(rows: seq<ChangeRow<C>>, n: nat, last: nat)
    requires Ascending(rows) && n <= |rows|
    requires forall j :: 0 <= j < |rows| ==> (rows[j].id <= last <==> j < n)
    ensures Between(rows, LOW, last) == rows[..n]
  {
    if n == 0 {
      BetweenNone(rows, LOW, last);
    } else {
      AscendingTail(rows);
      BetweenPrefix(rows[1..], n - 1, last);
      assert rows[..n] == [rows[0]] + rows[1..][..n - 1];
    }
  }

  // ---------- recovery ----------

  /** Applying the snapshot's last change to it once more, as the inclusive range does, changes nothing. */
  ghost predicate Settled<S, C, E>(step: Transition<S, C, E>, changes: seq<ChangeRow<C>>, row: SnapshotRow<S>)
  {
    forall i :: 0 <= i < |changes| && row.change == Some(changes[i].id) ==>
      step(row.state, changes[i].change).state == row.state
  }

  /** What replaying the inclusive range from a snapshot does to the state it holds. */
  lemma ReplayFrom<S, C, E>(step: Transition<S, C, E>, initial: S, t: Tables<S, C, E>, row: SnapshotRow<S>, target: nat)
    requires Recorded(step, initial, t) && row in t.snapshots && Usable(row, target)
    ensures Replayed(step, initial, t, target) == Fold(step, row.state, Between(t.changes, StartOf(row) + 1, target))
    ensures forall i :: 0 <= i < |t.changes| && row.change == Some(t.changes[i].id) ==>
      Fold(step, row.state, Between(t.changes, StartOf(row), target))
      == Fold(step, step(row.state, t.changes[i].change).state, Between(t.changes, StartOf(row) + 1, target))
    ensures row.change.None? ==>
      Fold(step, row.state, Between(t.changes, StartOf(row), target)) == Replayed(step, initial, t, target)
  {
    BetweenSplit(t.changes, StartOf(row), target);
    FoldConcat(step, initial, Between(t.changes, LOW, StartOf(row)), Between(t.changes, StartOf(row) + 1, target));
    if row.change.None? {
      BetweenNextFirst(t.changes, LOW, target);
    } else {
      forall i | 0 <= i < |t.changes| && row.change == Some(t.changes[i].id)
        ensures Between(t.changes, StartOf(row), target) != []
        ensures Between(t.changes, StartOf(row), target)[1..] == Between(t.changes, StartOf(row) + 1, target)
        ensures Between(t.changes, StartOf(row), target)[0] == t.changes[i]
      {
        BetweenHead(t.changes, i, target);
      }
    }
  }

  /** Recovery is correct for a target when the snapshot it starts from is settled. */
  lemma RestoreSettled<S, C, E>(step: Transition<S, C, E>, initial: S, t: Tables<S, C, E>, target: nat)
    requires Recorded(step, initial, t)
    requires var row := SnapshotBefore(t.snapshots, target); row.Some? ==> Settled(step, t.changes, row.value)
    ensures Restore(step, t, target) == Some(Replayed(step, initial, t, target))
  {
    var row := SnapshotBefore(t.snapshots, target);
    assert t.snapshots[0] in t.snapshots && Usable(t.snapshots[0], target);
    ReplayFrom(step, initial, t, row.value, target);
    if row.value.change.Some? {
      assert Faithful(step, initial, t.changes, row.value);
      var i :| 0 <= i < |t.changes| && t.changes[i].id == row.value.change.value;
    }
  }

  lemma {:induction false} NewestSnapshot<S>(rows: seq<SnapshotRow<S>>, k: nat)
    requires SnapshotsAscend(rows) && 0 < k < |rows|
    ensures SnapshotBefore(rows, rows[k].change.value) == Some(rows[k])
  {
    var last := |rows| - 1;
    if k != last {
      NewestSnapshot(rows[..last], k);
    }
  }

  /**
   The main theorem on one log. Recovery gives the folded log for every target if and only if every
   snapshot is settled.
   */
  lemma RestoreExact<S(!new), C, E>(step: Transition<S, C, E>, initial: S, t: Tables<S, C, E>)
    requires Recorded(step, initial, t)
    ensures (forall target: nat :: Restore(step, t, target) == Some(Replayed(step, initial, t, target)))
       <==> (forall row :: row in t.snapshots ==> Settled(step, t.changes, row))
  {
    if forall row :: row in t.snapshots ==> Settled(step, t.changes, row) {
      forall target: nat ensures Restore(step, t, target) == Some(Replayed(step, initial, t, target)) {
        RestoreSettled(step, initial, t, target);
      }
    } else {
      var row :| row in t.snapshots && !Settled(step, t.changes, row);
      UnsettledBreaks(step, initial, t, row);
    }
  }

  lemma UnsettledBreaks<S, C, E>(step: Transition<S, C, E>, initial: S, t: Tables<S, C, E>, row: SnapshotRow<S>)
    requires Recorded(step, initial, t) && row in t.snapshots && !Settled(step, t.changes, row)
    ensures row.change.Some?
    ensures Restore(step, t, row.change.value) != Some(Replayed(step, initial, t, row.change.value))
  {
    var i :| 0 <= i < |t.changes| && row.change == Some(t.changes[i].id)
      && step(row.state, t.changes[i].change).state != row.state;
    var k :| 0 <= k < |t.snapshots| && t.snapshots[k] == row;
    var target := row.change.value;
    NewestSnapshot(t.snapshots, k);
    ReplayFrom(step, initial, t, row, target);
    BetweenNone(t.changes, target + 1, target);
  }

  /** The requirement the design states is enough: idempotent changes settle every snapshot. */
  lemma IdempotentSettles<S(!new), C(!new), E>(
    step: Transition<S, C, E>, initial: S, changes: seq<ChangeRow<C>>, row: SnapshotRow<S>)
    requires Idempotent(step) && Ascending(changes) && Faithful(step, initial, changes, row)
    ensures Settled(step, changes, row)
  {
    forall i | 0 <= i < |changes| && row.change == Some(changes[i].id)
      ensures step(row.state, changes[i].change).state == row.state
    {
      BetweenLast(changes, i);
      assert changes[..i + 1] == changes[..i] + [changes[i]];
      FoldConcat(step, initial, changes[..i], [changes[i]]);
      var before := Fold(step, initial, changes[..i]);
      assert row.state == step(before, changes[i].change).state;
    }
  }

  lemma RecoveryRefinesReplay<S(!new), C(!new), E>(
    step: Transition<S, C, E>, initial: S, t: Tables<S, C, E>, target: nat)
    requires Idempotent(step) && Recorded(step, initial, t)
    ensures Restore(step, t, target) == Some(Replayed(step, initial, t, target))
  {
    var row := SnapshotBefore(t.snapshots, target);
    if row.Some? {
      assert Faithful(step, initial, t.changes, row.value);
      IdempotentSettles(step, initial, t.changes, row.value);
    }
    RestoreSettled(step, initial, t, target);
  }
}
