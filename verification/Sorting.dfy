/**
 Sorting with a strict order given as a function. `sort.Slice` promises only some
 ascending permutation; `sort.SliceStable` promises the stable one. Both promises
 coincide when no two elements tie.
 */
module Sorting {
  import opened Wrappers

  /** No later element is below an earlier one. */
  ghost predicate Ascending<T>(less: (T, T) -> bool, s: seq<T>) {
    forall i, j :: 0 <= i < j < |s| ==> !less(s[j], s[i])
  }

  ghost predicate StrictlyAscending<T>(less: (T, T) -> bool, s: seq<T>) {
    forall i, j :: 0 <= i < j < |s| ==> less(s[i], s[j])
  }

  ghost predicate StrictWeakOrder<T(!new)>(less: (T, T) -> bool) {
    && (forall x :: !less(x, x))
    && (forall x, y, z :: less(x, y) && less(y, z) ==> less(x, z))
    && (forall x, y, z :: !less(x, y) && !less(y, z) ==> !less(x, z))
  }

  /** What sort.Slice promises. */
  ghost predicate SortedVersion<T>(less: (T, T) -> bool, s: seq<T>, r: seq<T>) {
    Ascending(less, r) && multiset(r) == multiset(s)
  }

  function Insert<T>(less: (T, T) -> bool, s: seq<T>, x: T): (r: seq<T>)
    ensures |r| == |s| + 1
  {
    if s == [] then [x]
    else if less(x, s[0]) then [x] + s
    else [s[0]] + Insert(less, s[1..], x)
  }

  /** The stable sort: elements enter left to right, each after those it ties with. */
  function StableSort<T>(less: (T, T) -> bool, s: seq<T>): (r: seq<T>)
    ensures |r| == |s|
  {
    if s == [] then [] else Insert(less, StableSort(less, s[..|s| - 1]), s[|s| - 1])
  }

  lemma {:induction false} InsertPermutes<T>(less: (T, T) -> bool, s: seq<T>, x: T)
    ensures multiset(Insert(less, s, x)) == multiset(s) + multiset{x}
  {
    if s == [] {
    } else {
      assert s == [s[0]] + s[1..];
      InsertPermutes(less, s[1..], x);
    }
  }

  lemma {:induction false} StableSortPermutes<T>(less: (T, T) -> bool, s: seq<T>)
    ensures multiset(StableSort(less, s)) == multiset(s)
    ensures forall x :: x in StableSort(less, s) <==> x in s
  {
    if s == [] {
    } else {
      assert s == s[..|s| - 1] + [s[|s| - 1]];
      StableSortPermutes(less, s[..|s| - 1]);
      InsertPermutes(less, StableSort(less, s[..|s| - 1]), s[|s| - 1]);
    }
    SameElements(StableSort(less, s), s);
  }

  lemma SameElements<T>(a: seq<T>, b: seq<T>)
    requires multiset(a) == multiset(b)
    ensures |a| == |b|
    ensures forall x :: x in a <==> x in b
  {
    assert |multiset(a)| == |multiset(b)|;
    forall x ensures x in a <==> x in b {
      assert x in a <==> x in multiset(a);
      assert x in b <==> x in multiset(b);
    }
  }

  lemma {:induction false} InsertAscending<T(!new)>(less: (T, T) -> bool, s: seq<T>, x: T)
    requires StrictWeakOrder(less)
    requires Ascending(less, s)
    ensures Ascending(less, Insert(less, s, x))
  {
    if s == [] {
    } else {
      if less(x, s[0]) {
        forall j | 0 <= j < |s| ensures !less(s[j], x) {
          assert j == 0 || !less(s[j], s[0]);
        }
      } else {
        InsertAscending(less, s[1..], x);
        InsertPermutes(less, s[1..], x);
        var r := Insert(less, s[1..], x);
        forall j | 0 <= j < |r| ensures !less(r[j], s[0]) {
          assert r[j] in multiset(r);
          assert r[j] == x || r[j] in s[1..];
        }
      }
    }
  }

  lemma {:induction false} StableSortAscending<T(!new)>(less: (T, T) -> bool, s: seq<T>)
    requires StrictWeakOrder(less)
    ensures SortedVersion(less, s, StableSort(less, s))
  {
    StableSortPermutes(less, s);
    if s == [] {
    } else {
      StableSortAscending(less, s[..|s| - 1]);
      InsertAscending(less, StableSort(less, s[..|s| - 1]), s[|s| - 1]);
    }
  }

  /** When no two elements tie, ascending means strictly ascending. */
  lemma NoTiesStrict<T>(less: (T, T) -> bool, s: seq<T>, r: seq<T>)
    requires SortedVersion(less, s, r)
    requires forall x, y :: x in s && y in s && x != y ==> less(x, y) || less(y, x)
    requires forall i, j :: 0 <= i < j < |s| ==> s[i] != s[j]
    ensures StrictlyAscending(less, r)
  {
    SameElements(s, r);
    DistinctTransfer(s, r);
    forall i, j | 0 <= i < j < |r| ensures less(r[i], r[j]) {
      assert r[i] in s && r[j] in s && r[i] != r[j];
    }
  }

  lemma DistinctTransfer<T>(a: seq<T>, b: seq<T>)
    requires multiset(a) == multiset(b)
    requires forall i, j :: 0 <= i < j < |a| ==> a[i] != a[j]
    ensures forall i, j :: 0 <= i < j < |b| ==> b[i] != b[j]
  {
    forall i, j | 0 <= i < j < |b| ensures b[i] != b[j] {
      AtMostOnce(a, b[i]);
      if b[i] == b[j] {
        CountsTwice(b, i, j);
        assert false;
      }
    }
  }

  lemma CountsTwice<T>(b: seq<T>, i: nat, j: nat)
    requires i < j < |b| && b[i] == b[j]
    ensures multiset(b)[b[i]] >= 2
  {
    var x := b[i];
    assert b == b[..i] + [x] + b[i + 1..j] + [x] + b[j + 1..];
  }

  lemma {:induction false} AtMostOnce<T>(a: seq<T>, x: T)
    requires forall i, j :: 0 <= i < j < |a| ==> a[i] != a[j]
    ensures multiset(a)[x] <= 1
  {
    if a == [] {
    } else {
      var n := |a| - 1;
      assert a == a[..n] + [a[n]];
      AtMostOnce(a[..n], x);
      if a[n] == x {
        assert x !in a[..n];
        assert x !in multiset(a[..n]);
      }
    }
  }

  lemma HasElement<T>(s: seq<T>)
    requires s != []
    ensures exists x :: x in s
  {
    assert s[0] in s;
  }

  /**
   A strictly ascending sequence is determined by its set of elements: the canonical-form
   principle behind every sorted output of the service.
   */
  lemma {:induction false} StrictlyAscendingUnique<T>(less: (T, T) -> bool, a: seq<T>, b: seq<T>)
    requires StrictlyAscending(less, a) && StrictlyAscending(less, b)
    requires forall x :: x in a <==> x in b
    requires forall x, y :: x in a && y in a ==> !(less(x, y) && less(y, x))
    ensures a == b
  {
    if a == [] {
      if b != [] {
        HasElement(b);
        assert false;
      }
    } else {
      assert a[0] in b;
      assert b[0] in a;
      var k :| 0 <= k < |b| && b[k] == a[0];
      var l :| 0 <= l < |a| && a[l] == b[0];
      assert forall i :: 0 < i < |b| ==> less(b[0], b[i]);
      assert forall i :: 0 < i < |a| ==> less(a[0], a[i]);
      assert a[0] == b[0];
      var x0 := a[0];
      forall x ensures x in a[1..] <==> x in b[1..] {
        if x in a[1..] {
          var i :| 1 <= i < |a| && a[i] == x;
          assert less(x0, x);
          assert x in b;
          var j :| 0 <= j < |b| && b[j] == x;
          assert j != 0;
          assert b[1..][j - 1] == x;
        }
        if x in b[1..] {
          var i :| 1 <= i < |b| && b[i] == x;
          assert less(x0, x);
          assert x in a;
          var j :| 0 <= j < |a| && a[j] == x;
          assert j != 0;
          assert a[1..][j - 1] == x;
        }
      }
      StrictlyAscendingUnique(less, a[1..], b[1..]);
    }
  }

  ghost predicate NoTies<T(!new)>(less: (T, T) -> bool, s: seq<T>) {
    forall x, y :: x in s && y in s && x != y ==> less(x, y) || less(y, x)
  }

  lemma SameHead<T(!new)>(less: (T, T) -> bool, a: seq<T>, b: seq<T>)
    requires Ascending(less, a) && Ascending(less, b) && NoTies(less, a)
    requires a != [] && b != [] && a[0] in b && b[0] in a
    ensures a[0] == b[0]
  {
    var k :| 0 <= k < |b| && b[k] == a[0];
    var l :| 0 <= l < |a| && a[l] == b[0];
    assert k == 0 || !less(b[k], b[0]);
    assert l == 0 || !less(a[l], a[0]);
    assert a[0] in a;
  }

  lemma TailPermutes<T>(a: seq<T>, b: seq<T>)
    requires multiset(a) == multiset(b) && a != [] && b != [] && a[0] == b[0]
    ensures multiset(a[1..]) == multiset(b[1..])
    ensures a[1..] == b[1..] ==> a == b
  {
    assert a == [a[0]] + a[1..] && b == [b[0]] + b[1..];
    assert multiset(a[1..]) == multiset(a) - multiset{a[0]};
    assert multiset(b[1..]) == multiset(b) - multiset{b[0]};
  }

  lemma HeadsShared<T>(a: seq<T>, b: seq<T>)
    requires multiset(a) == multiset(b) && a != []
    ensures b != [] && a[0] in b && b[0] in a
  {
    SameElements(a, b);
    assert a[0] in a && b[0] in b;
  }

  /** When different elements never tie there is only one ascending permutation. */
  lemma {:induction false} AscendingUnique<T(!new)>(less: (T, T) -> bool, a: seq<T>, b: seq<T>)
    requires Ascending(less, a) && Ascending(less, b) && multiset(a) == multiset(b)
    requires NoTies(less, a)
    ensures a == b
  {
    hide NoTies, Ascending;
    if a == [] {
      SameElements(a, b);
    } else {
      HeadsShared(a, b);
      SameHead(less, a, b);
      TailPermutes(a, b);
      TailKeeps(less, a);
      TailKeeps(less, b);
      AscendingUnique(less, a[1..], b[1..]);
    }
  }

  lemma TailKeeps<T(!new)>(less: (T, T) -> bool, a: seq<T>)
    requires a != []
    ensures Ascending(less, a) ==> Ascending(less, a[1..])
    ensures NoTies(less, a) ==> NoTies(less, a[1..])
  {
  }

  // --------------------------------------------------------------- stability

  predicate Tied<T>(less: (T, T) -> bool, x: T, y: T) {
    !less(x, y) && !less(y, x)
  }

  /** The first element that ties with x. */
  function FirstTied<T>(less: (T, T) -> bool, s: seq<T>, x: T): (r: Option<T>)
    ensures r.None? <==> forall i :: 0 <= i < |s| ==> !Tied(less, s[i], x)
  {
    if s == [] then None
    else if Tied(less, s[0], x) then Some(s[0])
    else FirstTied(less, s[1..], x)
  }

  lemma {:induction false} FirstTiedAppend<T>(less: (T, T) -> bool, s: seq<T>, t: seq<T>, x: T)
    ensures FirstTied(less, s + t, x) ==
            if FirstTied(less, s, x).Some? then FirstTied(less, s, x) else FirstTied(less, t, x)
  {
    hide Tied;
    if s == [] {
      assert s + t == t;
    } else {
      FirstTiedAppend(less, s[1..], t, x);
      assert (s + t)[1..] == s[1..] + t;
    }
  }

  lemma {:induction false} InsertKeepsFirstTied<T(!new)>(less: (T, T) -> bool, s: seq<T>, e: T, x: T)
    requires StrictWeakOrder(less) && Ascending(less, s)
    ensures FirstTied(less, Insert(less, s, e), x) ==
            if FirstTied(less, s, x).Some? then FirstTied(less, s, x) else FirstTied(less, [e], x)
  {
    if s == [] {
    } else if less(e, s[0]) {
      FirstTiedAppend(less, [e], s, x);
      if Tied(less, e, x) {
        forall i | 0 <= i < |s| ensures !Tied(less, s[i], x) {
          assert i == 0 || !less(s[i], s[0]);
          assert less(e, s[i]);
        }
      }
    } else {
      InsertKeepsFirstTied(less, s[1..], e, x);
      assert Insert(less, s, e)[1..] == Insert(less, s[1..], e);
    }
  }

  /** A stable sort leaves the first of several tied elements first. */
  lemma {:induction false} StableSortKeepsFirstTied<T(!new)>(less: (T, T) -> bool, s: seq<T>, x: T)
    requires StrictWeakOrder(less)
    ensures FirstTied(less, StableSort(less, s), x) == FirstTied(less, s, x)
  {
    hide FirstTied;
    if s == [] {
    } else {
      var n := |s| - 1;
      StableSortKeepsFirstTied(less, s[..n], x);
      StableSortAscending(less, s[..n]);
      InsertKeepsFirstTied(less, StableSort(less, s[..n]), s[n], x);
      FirstTiedAppend(less, s[..n], [s[n]], x);
      assert s == s[..n] + [s[n]];
    }
  }

  /** If the elements of s that tie with x all equal e, then e comes first whatever follows s. */
  lemma FirstTiedLeads<T>(less: (T, T) -> bool, s: seq<T>, t: seq<T>, x: T, e: T)
    requires e in s && Tied(less, e, x)
    requires forall y :: y in s && Tied(less, y, x) ==> y == e
    ensures FirstTied(less, s + t, x) == Some(e)
  {
    hide Tied;
    FirstTiedAppend(less, s, t, x);
    FirstTiedIn(less, s, x);
  }

  lemma {:induction false} FirstTiedIn<T>(less: (T, T) -> bool, s: seq<T>, x: T)
    ensures FirstTied(less, s, x).Some? ==>
              FirstTied(less, s, x).value in s && Tied(less, FirstTied(less, s, x).value, x)
  {
    hide Tied;
    if s == [] || Tied(less, s[0], x) {
    } else {
      FirstTiedIn(less, s[1..], x);
    }
  }

  /** sort.Slice: callers learn only that the result is some ascending permutation. */
  method SortSlice<T(!new)>(less: (T, T) -> bool, s: seq<T>) returns (r: seq<T>)
    requires StrictWeakOrder(less)
    ensures SortedVersion(less, s, r)
  {
    StableSortAscending(less, s);
    r := StableSort(less, s);
  }
}
