/**
 The layered ordering of requirement files: each layer holds the files whose dependencies have all
 been placed. It succeeds exactly when the chosen files do not depend on each other in a circle.
 */
module DependencyOrder {
  import opened LockCodec
  import opened LockMaps

  type Name = string
  type Dependencies = map<Name, set<Name>>

  /** The dependencies that matter: those between chosen names. */
  function Needs(deps: Dependencies, names: set<Name>, s: Name): set<Name>
  {
    if s in deps then deps[s] * names else {}
  }

  function Chosen(deps: Dependencies, names: set<Name>): set<Name>
  {
    deps.Keys * names
  }

  /** Each chosen name once, after everything it needs. */
  ghost predicate IsOrder(deps: Dependencies, names: set<Name>, order: seq<Name>)
  {
    && NoDuplicates(order)
    && (forall s :: s in order <==> s in Chosen(deps, names))
    && forall i :: 0 <= i < |order| ==> Needs(deps, names, order[i]) <= Elements(order[..i])
  }

  function Elements(s: seq<Name>): (r: set<Name>)
    ensures forall x :: x in r <==> x in s
  {
    set x | x in s
  }

  /** `s` needs a name of `stuck`, or one that has no entry. */
  ghost predicate Waits(deps: Dependencies, names: set<Name>, stuck: set<Name>, s: Name)
  {
    exists d :: d in Needs(deps, names, s) && (d in stuck || d !in deps)
  }

  /** Every name of `stuck` waits for another one of them, or for a name without an entry. */
  ghost predicate Stuck(deps: Dependencies, names: set<Name>, stuck: set<Name>)
  {
    stuck != {} && stuck <= Chosen(deps, names)
    && forall s :: s in stuck ==> Waits(deps, names, stuck, s)
  }

  /**
   `_resolve_deps`; `None` is the `RuntimeError`. With an entry for every chosen name it is raised
   exactly when the chosen names depend on each other in a circle.
   */
  method ResolveDeps(deps: Dependencies, names: set<Name>) returns (r: Option<seq<Name>>)
    ensures r.Some? ==> IsOrder(deps, names, r.value)
    ensures r.None? <==> exists stuck :: Stuck(deps, names, stuck)
    ensures names <= deps.Keys ==> (r.None? <==> exists walk :: IsCycle(deps, names, walk))
  {
    var requirements: Dependencies := map s | s in deps && s in names :: deps[s] * names;
    var solution: seq<Name> := [];
    while requirements.Keys != {}
      invariant requirements.Keys == Chosen(deps, names) - Elements(solution)
      invariant forall s :: s in requirements ==> requirements[s] == Needs(deps, names, s) - Elements(solution)
      invariant Elements(solution) <= Chosen(deps, names) && NoDuplicates(solution)
      invariant forall i :: 0 <= i < |solution| ==> Needs(deps, names, solution[i]) <= Elements(solution[..i])
      decreases requirements.Keys
    {
      var satisfied := set s | s in requirements && requirements[s] == {};
      if satisfied == {} {
        forall s | s in requirements ensures requirements[s] != {} {
          assert s !in satisfied;
        }
        StuckHere(deps, names, requirements, solution);
        if names <= deps.Keys {
          ghost var walk := StuckHasCycle(deps, names, requirements.Keys);
        }
        return None;
      }
      forall s | s in satisfied ensures Needs(deps, names, s) <= Elements(solution) {
        NothingLeft(Needs(deps, names, s), Elements(solution));
      }
      ghost var before := requirements;
      requirements := Shrink(requirements, satisfied);
      solution := Extend(deps, names, solution, satisfied);
      assert requirements.Keys < before.Keys;
    }
    NothingLeft(Chosen(deps, names), Elements(solution));
    OrderExcludesStuck(deps, names, solution);
    return Some(solution);
  }

  lemma NothingLeft(a: set<Name>, b: set<Name>)
    requires a - b == {}
    ensures a <= b
  {
    forall d | d in a ensures d in b {
      assert d !in a - b;
    }
  }

  lemma StuckHere(deps: Dependencies, names: set<Name>, requirements: Dependencies, solution: seq<Name>)
    requires requirements.Keys != {} && requirements.Keys == Chosen(deps, names) - Elements(solution)
    requires forall s :: s in requirements ==> requirements[s] == Needs(deps, names, s) - Elements(solution)
    requires forall s :: s in requirements ==> requirements[s] != {}
    ensures Stuck(deps, names, requirements.Keys)
  {
    forall s | s in requirements
      ensures Waits(deps, names, requirements.Keys, s)
    {
      var d :| d in requirements[s];
      assert d in Needs(deps, names, s) && (d in requirements.Keys || d !in deps);
    }
  }

  /** Deletes the satisfied entries and takes them out of the remaining dependency sets. */
  method Shrink(requirements: Dependencies, satisfied: set<Name>) returns (r: Dependencies)
    ensures r == map s | s in requirements && s !in satisfied :: requirements[s] - satisfied
  {
    r := requirements;
    var todo := satisfied;
    while todo != {}
      invariant todo <= satisfied
      invariant r == map s | s in requirements && s !in satisfied - todo :: requirements[s]
      decreases todo
    {
      var s :| s in todo;
      r := r - {s};
      todo := todo - {s};
    }
    todo := r.Keys;
    while todo != {}
      invariant todo <= r.Keys == requirements.Keys - satisfied
      invariant forall s :: s in r ==> r[s] == if s in todo then requirements[s] else requirements[s] - satisfied
      decreases todo
    {
      var s :| s in todo;
      r := r[s := r[s] - satisfied];
      todo := todo - {s};
    }
  }

  /** `solution.extend(satisfied)`, in whatever order the set is iterated. */
  method Extend(deps: Dependencies, names: set<Name>, solution: seq<Name>, satisfied: set<Name>) returns (r: seq<Name>)
    requires NoDuplicates(solution) && satisfied !! Elements(solution)
    requires forall i :: 0 <= i < |solution| ==> Needs(deps, names, solution[i]) <= Elements(solution[..i])
    requires forall s :: s in satisfied ==> Needs(deps, names, s) <= Elements(solution)
    ensures NoDuplicates(r) && Elements(r) == Elements(solution) + satisfied
    ensures forall i :: 0 <= i < |r| ==> Needs(deps, names, r[i]) <= Elements(r[..i])
  {
    r := solution;
    var todo := satisfied;
    while todo != {}
      invariant todo <= satisfied && NoDuplicates(r) && solution <= r
      invariant Elements(r) == Elements(solution) + (satisfied - todo)
      invariant forall i :: 0 <= i < |r| ==> Needs(deps, names, r[i]) <= Elements(r[..i])
      decreases todo
    {
      var s :| s in todo;
      ghost var old_r := r;
      r := r + [s];
      assert forall i :: 0 <= i < |old_r| ==> r[..i] == old_r[..i];
      assert r[..|old_r|] == old_r;
      todo := todo - {s};
    }
  }

  // ---------- success excludes being stuck ----------

  lemma OrderNotStuck(deps: Dependencies, names: set<Name>, order: seq<Name>, stuck: set<Name>)
    requires IsOrder(deps, names, order) && Stuck(deps, names, stuck)
    ensures false
  {
    var s :| s in stuck;
    var k :| 0 <= k < |order| && order[k] == s;
    EarlierStuck(deps, names, order, stuck, k);
  }

  lemma {:induction false} EarlierStuck(deps: Dependencies, names: set<Name>, order: seq<Name>, stuck: set<Name>, k: nat)
    requires IsOrder(deps, names, order) && Stuck(deps, names, stuck) && k < |order| && order[k] in stuck
    ensures false
    decreases k
  {
    var d :| d in Needs(deps, names, order[k]) && (d in stuck || d !in deps);
    assert d in Elements(order[..k]);
    var j :| 0 <= j < k && order[..k][j] == d;
    assert order[j] == d && d in order;
    EarlierStuck(deps, names, order, stuck, j);
  }

  // ---------- circles ----------

  /** A walk along dependencies between chosen names. */
  ghost predicate IsWalk(deps: Dependencies, names: set<Name>, walk: seq<Name>)
  {
    (forall i :: 0 <= i < |walk| ==> walk[i] in Chosen(deps, names))
    && forall i :: 0 <= i < |walk| - 1 ==> walk[i + 1] in Needs(deps, names, walk[i])
  }

  ghost predicate IsCycle(deps: Dependencies, names: set<Name>, walk: seq<Name>)
  {
    IsWalk(deps, names, walk) && |walk| >= 2 && walk[0] == walk[|walk| - 1]
  }

  lemma CycleIsStuck(deps: Dependencies, names: set<Name>, walk: seq<Name>)
    requires IsCycle(deps, names, walk)
    ensures Stuck(deps, names, Elements(walk))
  {
    assert walk[0] in Elements(walk);
    forall s | s in Elements(walk) ensures Waits(deps, names, Elements(walk), s) {
      var i :| 0 <= i < |walk| && walk[i] == s;
      var next := if i < |walk| - 1 then walk[i + 1] else walk[1];
      assert next in Needs(deps, names, s) && next in walk;
    }
  }

  lemma {:induction false} WalkInside(deps: Dependencies, names: set<Name>, stuck: set<Name>, n: nat) returns (walk: seq<Name>)
    requires names <= deps.Keys && Stuck(deps, names, stuck)
    ensures |walk| == n + 1 && IsWalk(deps, names, walk) && Elements(walk) <= stuck
  {
    if n == 0 {
      var s :| s in stuck;
      walk := [s];
    } else {
      var rest := WalkInside(deps, names, stuck, n - 1);
      var last := rest[n - 1];
      assert last in Elements(rest);
      assert Waits(deps, names, stuck, last);
      var d :| d in Needs(deps, names, last) && (d in stuck || d !in deps);
      walk := rest + [d];
    }
  }

  lemma {:induction false} DistinctSize(s: seq<Name>, bound: set<Name>)
    requires NoDuplicates(s) && Elements(s) <= bound
    ensures |s| <= |bound|
  {
    if s != [] {
      var n := |s| - 1;
      assert s[n] in Elements(s);
      forall x | x in Elements(s[..n]) ensures x in bound - {s[n]} {
        var i :| 0 <= i < n && s[..n][i] == x;
        assert s[i] == x && x in Elements(s);
      }
      DistinctSize(s[..n], bound - {s[n]});
    }
  }

  /** A set of names that all wait for each other contains a circle. */
  lemma StuckHasCycle(deps: Dependencies, names: set<Name>, stuck: set<Name>) returns (walk: seq<Name>)
    requires names <= deps.Keys && Stuck(deps, names, stuck)
    ensures IsCycle(deps, names, walk)
  {
    var long := WalkInside(deps, names, stuck, |stuck|);
    if NoDuplicates(long) {
      DistinctSize(long, stuck);
    }
    var i, j :| 0 <= i < j < |long| && long[i] == long[j];
    walk := long[i..j + 1];
  }

  lemma OrderExcludesStuck(deps: Dependencies, names: set<Name>, order: seq<Name>)
    requires IsOrder(deps, names, order)
    ensures !exists stuck :: Stuck(deps, names, stuck)
    ensures !exists walk :: IsCycle(deps, names, walk)
  {
    if stuck :| Stuck(deps, names, stuck) {
      OrderNotStuck(deps, names, order, stuck);
    }
    if walk :| IsCycle(deps, names, walk) {
      CycleIsStuck(deps, names, walk);
    }
  }
}
