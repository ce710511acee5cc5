/**
 Sums over the dictionaries that index locks by secrethash, and Python's `list.remove` on the
 list of pending locks.
 */
module LockMaps {
  import opened LockCodec

  /** `UnlockPartialProofState`: a lock together with its secret. */
  datatype UnlockProof = UnlockProof(lock: Lock, secret: Bytes)

  type LockMap = map<Hash, Lock>
  type ProofMap = map<Hash, UnlockProof>

  function LocksOf(m: ProofMap): (r: LockMap)
    ensures r.Keys == m.Keys && forall h :: h in m ==> r[h] == m[h].lock
  {
    map h | h in m :: m[h].lock
  }

  ghost predicate IsLeast(k: Hash, s: set<Hash>)
  {
    k in s && forall j :: j in s ==> k <= j
  }

  lemma {:induction false} LeastExists(s: set<Hash>) returns (least: Hash)
    requires s != {}
    ensures IsLeast(least, s)
  {
    var k :| k in s;
    var rest := s - {k};
    if rest == {} {
      least := k;
    } else {
      var r := LeastExists(rest);
      least := if k <= r then k else r;
    }
    assert forall j :: j in s ==> j == k || j in rest;
  }

  function Least(s: set<Hash>): (k: Hash)
    requires s != {}
    ensures k in s
  {
    assert exists k :: k in s && forall j :: j in s ==> k <= j by {
      var k := LeastExists(s);
    }
    var k :| k in s && forall j :: j in s ==> k <= j;
    k
  }

  /** `del d[k]`, or nothing when the key is absent. */
  function Without<V>(m: map<Hash, V>, k: Hash): (r: map<Hash, V>)
    ensures r.Keys == m.Keys - {k}
    ensures forall h :: h in r ==> r[h] == m[h]
  {
    m - {k}
  }

  lemma WithoutCommutes(m: LockMap, k: Hash, h: Hash)
    ensures Without(Without(m, k), h) == Without(Without(m, h), k)
  {
  }

  /** The sum of the amounts, in the order of the keys; `SumRemove` says the order is irrelevant. */
  function SumAmounts(m: LockMap): nat
    decreases m.Keys
  {
    if m.Keys == {} then 0
    else var k := Least(m.Keys); m[k].amount + SumAmounts(Without(m, k))
  }

  lemma {:induction false} SumRemove(m: LockMap, h: Hash)
    requires h in m
    ensures SumAmounts(m) == m[h].amount + SumAmounts(Without(m, h))
    decreases m.Keys
  {
    var k := Least(m.Keys);
    if k != h {
      SumRemove(Without(m, k), h);
      SumRemove(Without(m, h), k);
      WithoutCommutes(m, k, h);
    }
  }

  lemma SumInsert(m: LockMap, h: Hash, lock: Lock)
    requires h !in m
    ensures SumAmounts(m[h := lock]) == SumAmounts(m) + lock.amount
  {
    SumRemove(m[h := lock], h);
    assert Without(m[h := lock], h) == m;
  }

  lemma WithoutUnion(a: LockMap, b: LockMap, k: Hash)
    requires k !in b
    ensures Without(a + b, k) == Without(a, k) + b
  {
  }

  lemma {:induction false} SumUnion(a: LockMap, b: LockMap)
    requires a.Keys !! b.Keys
    ensures SumAmounts(a + b) == SumAmounts(a) + SumAmounts(b)
    decreases a.Keys
  {
    if a.Keys == {} {
      assert a + b == b;
    } else {
      var k :| k in a;
      SumUnion(Without(a, k), b);
      SumRemove(a, k);
      SumRemove(a + b, k);
      WithoutUnion(a, b, k);
    }
  }

  // ---------- the ordered list of encoded locks ----------

  ghost predicate NoDuplicates<T>(s: seq<T>)
  {
    forall i, j :: 0 <= i < j < |s| ==> s[i] != s[j]
  }

  /** `list.remove(x)`: drops the first occurrence and keeps the order of the rest. */
  function RemoveFirst<T(==)>(s: seq<T>, x: T): (r: seq<T>)
    requires x in s
    ensures |r| == |s| - 1
  {
    if s[0] == x then s[1..] else [s[0]] + RemoveFirst(s[1..], x)
  }

  lemma {:induction false} RemoveFirstDistinct<T(!new)>(s: seq<T>, x: T)
    requires NoDuplicates(s) && x in s
    ensures NoDuplicates(RemoveFirst(s, x))
    ensures forall y :: y in RemoveFirst(s, x) <==> y in s && y != x
  {
    assert s == [s[0]] + s[1..];
    if s[0] != x {
      RemoveFirstDistinct(s[1..], x);
      var r := RemoveFirst(s[1..], x);
      assert s[0] !in s[1..];
      assert RemoveFirst(s, x) == [s[0]] + r;
    }
  }
}
