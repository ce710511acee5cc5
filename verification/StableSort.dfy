/**
 Python's `list.sort`: a stable sort by a key. Selecting the elements of one kind commutes with it,
 so it never reorders what was in order.
 */
module StableSort {
  import opened LockMaps

  function Select<T(!new)>(s: seq<T>, p: T -> bool): (r: seq<T>)
    ensures forall e :: e in r <==> e in s && p(e)
  {
    if s == [] then []
    else
      assert s == [s[0]] + s[1..];
      if p(s[0]) then [s[0]] + Select(s[1..], p) else Select(s[1..], p)
  }

  lemma {:induction false} SelectConcat<T(!new)>(a: seq<T>, b: seq<T>, p: T -> bool)
    ensures Select(a + b, p) == Select(a, p) + Select(b, p)
  {
    if a == [] {
      assert a + b == b;
    } else {
      assert (a + b)[1..] == a[1..] + b;
      SelectConcat(a[1..], b, p);
    }
  }

  lemma SelectHead<T(!new)>(s: seq<T>, p: T -> bool)
    requires s != []
    ensures Select(s, p) == (if p(s[0]) then [s[0]] else []) + Select(s[1..], p)
  {
  }

  lemma {:induction false} SelectAll<T(!new)>(s: seq<T>, p: T -> bool)
    requires forall e :: e in s ==> p(e)
    ensures Select(s, p) == s
  {
    if s != [] {
      assert s == [s[0]] + s[1..];
      SelectAll(s[1..], p);
    }
  }

  lemma {:induction false} SelectNone<T(!new)>(s: seq<T>, p: T -> bool)
    requires forall e :: e in s ==> !p(e)
    ensures Select(s, p) == []
  {
    if s != [] {
      SelectNone(s[1..], p);
    }
  }

  lemma {:induction false} SelectSame<T(!new)>(s: seq<T>, p: T -> bool, q: T -> bool)
    requires forall e :: e in s ==> p(e) == q(e)
    ensures Select(s, p) == Select(s, q)
  {
    if s != [] {
      assert s == [s[0]] + s[1..];
      SelectSame(s[1..], p, q);
    }
  }

  /** Selecting twice: all of the selected elements pass, or none of them does. */
  lemma {:induction false} SelectSelect<T(!new)>(s: seq<T>, p: T -> bool, q: T -> bool)
    ensures (forall e :: e in s && q(e) ==> p(e)) ==> Select(Select(s, p), q) == Select(s, q)
    ensures (forall e :: e in s && q(e) ==> !p(e)) ==> Select(Select(s, p), q) == []
  {
    if s != [] {
      assert s == [s[0]] + s[1..];
      SelectSelect(s[1..], p, q);
      if p(s[0]) {
        assert ([s[0]] + Select(s[1..], p))[1..] == Select(s[1..], p);
      }
    }
  }

  /** Comparing keys: any two can be compared, and comparisons can be chained. */
  ghost predicate IsComparison<T(!new)>(le: (T, T) -> bool)
  {
    (forall a, b :: le(a, b) || le(b, a)) && (forall a, b, c :: le(a, b) && le(b, c) ==> le(a, c))
  }

  ghost predicate Ordered<T>(le: (T, T) -> bool, s: seq<T>)
  {
    forall i, j :: 0 <= i < j < |s| ==> le(s[i], s[j])
  }

  /** In front of the first element that does not come before `e`. */
  function Insert<T(!new)>(le: (T, T) -> bool, e: T, s: seq<T>): (r: seq<T>)
    ensures |r| == |s| + 1 && forall x :: x in r <==> x == e || x in s
  {
    if s == [] || le(e, s[0]) then [e] + s
    else
      assert s == [s[0]] + s[1..];
      [s[0]] + Insert(le, e, s[1..])
  }

  function Sort<T(!new)>(le: (T, T) -> bool, s: seq<T>): (r: seq<T>)
    ensures |r| == |s| && forall x :: x in r <==> x in s
  {
    if s == [] then []
    else
      assert s == [s[0]] + s[1..];
      Insert(le, s[0], Sort(le, s[1..]))
  }

  lemma {:induction false} InsertOrdered<T(!new)>(le: (T, T) -> bool, e: T, s: seq<T>)
    requires IsComparison(le) && Ordered(le, s)
    ensures Ordered(le, Insert(le, e, s))
  {
    if s != [] {
      assert s == [s[0]] + s[1..];
      assert forall x :: x in s[1..] ==> le(s[0], x);
      if !le(e, s[0]) {
        InsertOrdered(le, e, s[1..]);
      }
    }
  }

  lemma {:induction false} SortOrdered<T(!new)>(le: (T, T) -> bool, s: seq<T>)
    requires IsComparison(le)
    ensures Ordered(le, Sort(le, s))
  {
    if s != [] {
      SortOrdered(le, s[1..]);
      InsertOrdered(le, s[0], Sort(le, s[1..]));
    }
  }

  lemma {:induction false} SortUnchanged<T(!new)>(le: (T, T) -> bool, s: seq<T>)
    requires Ordered(le, s)
    ensures Sort(le, s) == s
  {
    if s != [] {
      SortUnchanged(le, s[1..]);
      assert s == [s[0]] + s[1..];
    }
  }

  lemma {:induction false} SelectInsert<T(!new)>(le: (T, T) -> bool, e: T, s: seq<T>, p: T -> bool)
    requires IsComparison(le) && Ordered(le, s)
    ensures Select(Insert(le, e, s), p) == if p(e) then Insert(le, e, Select(s, p)) else Select(s, p)
  {
    if s == [] || le(e, s[0]) {
      assert ([e] + s)[1..] == s;
      var r := Select(s, p);
      if r != [] {
        assert r[0] in s;
        assert s != [] && (r[0] == s[0] || le(s[0], r[0]));
      }
    } else {
      SelectInsert(le, e, s[1..], p);
      var r := Insert(le, e, s[1..]);
      assert ([s[0]] + r)[1..] == r;
      assert ([s[0]] + Select(s[1..], p))[1..] == Select(s[1..], p);
    }
  }

  /** Sorting is stable: it keeps the order within any selection that was in order. */
  lemma {:induction false} SelectSort<T(!new)>(le: (T, T) -> bool, s: seq<T>, p: T -> bool)
    requires IsComparison(le)
    ensures Select(Sort(le, s), p) == Sort(le, Select(s, p))
  {
    if s != [] {
      SelectSort(le, s[1..], p);
      SortOrdered(le, s[1..]);
      SelectInsert(le, s[0], Sort(le, s[1..]), p);
    }
  }

  lemma {:induction false} SelectOrdered<T(!new)>(le: (T, T) -> bool, s: seq<T>, p: T -> bool)
    requires Ordered(le, s)
    ensures Ordered(le, Select(s, p))
  {
    if s != [] {
      SelectOrdered(le, s[1..], p);
      assert forall x :: x in s[1..] ==> le(s[0], x);
    }
  }

  lemma DistinctTail<T(!new)>(s: seq<T>)
    requires s != []
    ensures NoDuplicates(s) <==> s[0] !in s[1..] && NoDuplicates(s[1..])
  {
    assert forall k :: 0 <= k < |s[1..]| ==> s[1..][k] == s[k + 1];
    if s[0] !in s[1..] && NoDuplicates(s[1..]) {
      forall i, j | 0 <= i < j < |s| ensures s[i] != s[j] {
        assert s[1..][j - 1] == s[j];
        if i > 0 { assert s[1..][i - 1] == s[i]; }
      }
    }
  }

  /** Sorting a list without repetitions does not create any. */
  lemma {:induction false} SortDistinct<T(!new)>(le: (T, T) -> bool, s: seq<T>)
    requires NoDuplicates(s)
    ensures NoDuplicates(Sort(le, s))
  {
    if s != [] {
      DistinctTail(s);
      SortDistinct(le, s[1..]);
      InsertDistinct(le, s[0], Sort(le, s[1..]));
    }
  }

  lemma {:induction false} InsertDistinct<T(!new)>(le: (T, T) -> bool, e: T, s: seq<T>)
    requires e !in s && NoDuplicates(s)
    ensures NoDuplicates(Insert(le, e, s))
  {
    var r := Insert(le, e, s);
    DistinctTail(r);
    if s != [] && !le(e, s[0]) {
      DistinctTail(s);
      InsertDistinct(le, e, s[1..]);
    }
  }
}
