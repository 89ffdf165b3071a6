/** Sorting a finite set under a strict total order: the specification of the program's `sorted`. */
module Order {
  import opened Basics

  /** `less` orders the elements of S strictly and totally. */
  ghost predicate TotalOn<T(!new)>(less: (T, T) -> bool, S: set<T>)
  {
    && (forall x <- S :: !less(x, x))
    && (forall x <- S, y <- S :: x == y || less(x, y) || less(y, x))
    && (forall x <- S, y <- S, z <- S :: less(x, y) && less(y, z) ==> less(x, z))
  }

  ghost predicate Ascending<T(!new)>(less: (T, T) -> bool, s: seq<T>)
  {
    forall i, j :: 0 <= i < j < |s| ==> less(s[i], s[j])
  }

  lemma {:induction false} LeastExists<T(!new)>(less: (T, T) -> bool, S: set<T>)
    requires S != {} && TotalOn(less, S)
    ensures exists m :: m in S && forall x <- S :: x == m || less(m, x)
    decreases |S|
  {
    var e :| e in S;
    var R := S - {e};
    if R == {} {
      assert S == {e};
    } else {
      LeastExists(less, R);
      var m :| m in R && forall x <- R :: x == m || less(m, x);
      var least := if less(m, e) then m else e;
      assert least in S && forall x <- S :: x == least || less(least, x);
    }
  }

  ghost function Least<T(!new)>(less: (T, T) -> bool, S: set<T>): (m: T)
    requires S != {} && TotalOn(less, S)
    ensures m in S && forall x <- S :: x == m || less(m, x)
  {
    LeastExists(less, S);
    var m :| m in S && forall x <- S :: x == m || less(m, x);
    m
  }

  /** The elements of S in ascending order, each once. */
  ghost function Sorted<T(!new)>(less: (T, T) -> bool, S: set<T>): (s: seq<T>)
    requires TotalOn(less, S)
    ensures Ascending(less, s)
    ensures forall x :: x in s <==> x in S
    decreases |S|
  {
    if S == {} then []
    else
      var m := Least(less, S);
      var rest := Sorted(less, S - {m});
      assert forall j :: 0 <= j < |rest| ==> rest[j] in S - {m} && less(m, rest[j]);
      [m] + rest
  }

  lemma SortedSize<T(!new)>(less: (T, T) -> bool, S: set<T>)
    requires TotalOn(less, S)
    ensures Distinct(Sorted(less, S)) && |Sorted(less, S)| == |S|
  {
    var s := Sorted(less, S);
    DistinctSize(s);
    assert Elems(s) == S;
  }

  lemma SortedHead<A(!new)>(less: (A, A) -> bool, S: set<A>, m: A)
    requires TotalOn(less, S) && m in S && forall x <- S :: x == m || less(m, x)
    ensures Sorted(less, S) != [] && Sorted(less, S)[0] == m
  {
  }

  lemma SameSize<T(!new)>(less: (T, T) -> bool, s: seq<T>, t: seq<T>)
    requires Ascending(less, s) && Ascending(less, t)
    requires forall x :: x in s <==> x in t
    requires TotalOn(less, set x | x in s)
    ensures |s| == |t|
  {
    assert forall x <- s :: x in (set y | y in s) && !less(x, x);
    assert Elems(s) == Elems(t);
    DistinctSize(s);
    DistinctSize(t);
  }

  lemma SameHeads<T(!new)>(less: (T, T) -> bool, s: seq<T>, t: seq<T>)
    requires s != [] && t != [] && Ascending(less, s) && Ascending(less, t)
    requires forall x :: x in s <==> x in t
    requires TotalOn(less, set x | x in s)
    ensures s[0] == t[0]
  {
    assert s[0] in t && t[0] in s;
    var i :| 0 <= i < |t| && t[i] == s[0];
    var j :| 0 <= j < |s| && s[j] == t[0];
  }

  /** Two ascending sequences with the same elements are equal. */
  lemma {:induction false} AscendingUnique<T(!new)>(less: (T, T) -> bool, s: seq<T>, t: seq<T>)
    requires Ascending(less, s) && Ascending(less, t)
    requires forall x :: x in s <==> x in t
    requires TotalOn(less, set x | x in s)
    ensures s == t
  {
    SameSize(less, s, t);
    if s != [] {
      SameHeads(less, s, t);
      SameTails(less, s, t);
      assert (set x | x in s[1..]) <= (set x | x in s);
      AscendingUnique(less, s[1..], t[1..]);
      assert s == [s[0]] + s[1..] && t == [t[0]] + t[1..];
    }
  }

  lemma SameTails<T(!new)>(less: (T, T) -> bool, s: seq<T>, t: seq<T>)
    requires s != [] && t != [] && s[0] == t[0]
    requires Ascending(less, s) && Ascending(less, t)
    requires forall x :: x in s <==> x in t
    requires TotalOn(less, set x | x in s)
    ensures forall x :: x in s[1..] <==> x in t[1..]
  {
    forall x ensures x in s[1..] ==> x in t[1..] {
      if x in s[1..] { TailMember(less, s, t, x); }
    }
    forall x ensures x in t[1..] ==> x in s[1..] {
      if x in t[1..] {
        assert (set x | x in s) == (set x | x in t);
        TailMember(less, t, s, x);
      }
    }
  }

  lemma TailMember<T(!new)>(less: (T, T) -> bool, s: seq<T>, t: seq<T>, x: T)
    requires s != [] && t != [] && s[0] == t[0]
    requires Ascending(less, s)
    requires forall x :: x in s <==> x in t
    requires TotalOn(less, set x | x in s)
    requires x in s[1..]
    ensures x in t[1..]
  {
    var i :| 0 < i < |s| && s[i] == x;
    assert less(s[0], x);
    assert x in s && s[0] in s;
    assert x != s[0];
    assert x in t;
  }

  /** Anything ascending over exactly S is the sorted listing of S. */
  lemma SortedIs<T(!new)>(less: (T, T) -> bool, S: set<T>, t: seq<T>)
    requires TotalOn(less, S)
    requires Ascending(less, t)
    requires forall x :: x in t <==> x in S
    ensures Sorted(less, S) == t
  {
    assert (set x | x in Sorted(less, S)) == S;
    AscendingUnique(less, Sorted(less, S), t);
  }

  function Filtered<T(!new)>(keep: T -> bool, s: seq<T>): (r: seq<T>)
    ensures forall x :: x in r <==> x in s && keep(x)
  {
    if s == [] then []
    else (if keep(s[0]) then [s[0]] else []) + Filtered(keep, s[1..])
  }

  lemma {:induction false} FilteredAppend<T(!new)>(keep: T -> bool, s: seq<T>, x: T)
    ensures Filtered(keep, s + [x]) == Filtered(keep, s) + (if keep(x) then [x] else [])
  {
    if s == [] {
      assert s + [x] == [x];
    } else {
      FilteredAppend(keep, s[1..], x);
      assert (s + [x])[0] == s[0] && (s + [x])[1..] == s[1..] + [x];
      var first, last := if keep(s[0]) then [s[0]] else [], if keep(x) then [x] else [];
      assert first + (Filtered(keep, s[1..]) + last) == first + Filtered(keep, s[1..]) + last;
    }
  }

  lemma {:induction false} FilteredAscending<T(!new)>(less: (T, T) -> bool, keep: T -> bool, s: seq<T>)
    requires Ascending(less, s)
    ensures Ascending(less, Filtered(keep, s))
  {
    if s != [] {
      FilteredAscending(less, keep, s[1..]);
      var rest := Filtered(keep, s[1..]);
      forall i | 0 <= i < |rest| ensures less(s[0], rest[i]) {
        assert rest[i] in s[1..];
      }
    }
  }

  /** Sorting commutes with restricting the set. */
  lemma SortedFiltered<T(!new)>(less: (T, T) -> bool, keep: T -> bool, S: set<T>, R: set<T>)
    requires TotalOn(less, S)
    requires forall x :: x in R <==> x in S && keep(x)
    ensures TotalOn(less, R) && Sorted(less, R) == Filtered(keep, Sorted(less, S))
  {
    FilteredAscending(less, keep, Sorted(less, S));
    SortedIs(less, R, Filtered(keep, Sorted(less, S)));
  }

  /** Insertion into an ascending sequence. */
  method Insert<T(!new)>(less: (T, T) -> bool, s: seq<T>, x: T, ghost S: set<T>) returns (r: seq<T>)
    requires TotalOn(less, S) && x in S && x !in s
    requires forall y :: y in s ==> y in S
    requires Ascending(less, s)
    ensures Ascending(less, r)
    ensures forall y :: y in r <==> y == x || y in s
  {
    var i := 0;
    while i < |s| && less(s[i], x)
      invariant 0 <= i <= |s|
      invariant forall j :: 0 <= j < i ==> less(s[j], x)
    {
      i := i + 1;
    }
    r := s[..i] + [x] + s[i..];
  }

  method Sort<T(!new, ==)>(less: (T, T) -> bool, S: set<T>) returns (r: seq<T>)
    requires TotalOn(less, S)
    ensures r == Sorted(less, S)
  {
    var todo := S;
    r := [];
    while todo != {}
      invariant todo <= S
      invariant forall x :: x in r <==> x in S - todo
      invariant Ascending(less, r)
      decreases todo
    {
      var x :| x in todo;
      r := Insert(less, r, x, S);
      todo := todo - {x};
    }
    SortedIs(less, S, r);
  }
}
