/** Shared small types and the code-point order of strings. */
module Basics {

  datatype Option<+T> = None | Some(value: T)

  /** The order in which the program compares identifiers: by code point, a prefix first. */
  predicate Before(a: string, b: string)
  {
    b != [] && (a == [] || a[0] < b[0] || (a[0] == b[0] && Before(a[1..], b[1..])))
  }

  lemma {:induction false} BeforeIrreflexive(a: string)
    ensures !Before(a, a)
  {
    if a != [] {
      BeforeIrreflexive(a[1..]);
    }
  }

  lemma {:induction false} BeforeTotal(a: string, b: string)
    ensures a == b || Before(a, b) || Before(b, a)
  {
    if a != [] && b != [] && a[0] == b[0] {
      BeforeTotal(a[1..], b[1..]);
      assert a == [a[0]] + a[1..] && b == [b[0]] + b[1..];
    }
  }

  lemma {:induction false} BeforeTransitive(a: string, b: string, c: string)
    requires Before(a, b) && Before(b, c)
    ensures Before(a, c)
  {
    if a != [] && a[0] == b[0] == c[0] {
      BeforeTransitive(a[1..], b[1..], c[1..]);
    }
  }

  /** The three facts at once, for proofs that compare many strings. */
  lemma BeforeIsAnOrder()
    ensures forall a: string :: !Before(a, a)
    ensures forall a: string, b: string {:trigger Before(a, b)} :: a == b || Before(a, b) || Before(b, a)
    ensures forall a: string, b: string, c: string {:trigger Before(a, b), Before(b, c)} ::
              Before(a, b) && Before(b, c) ==> Before(a, c)
  {
    forall a: string ensures !Before(a, a) { BeforeIrreflexive(a); }
    forall a: string, b: string ensures a == b || Before(a, b) || Before(b, a) { BeforeTotal(a, b); }
    forall a: string, b: string, c: string | Before(a, b) && Before(b, c) ensures Before(a, c) {
      BeforeTransitive(a, b, c);
    }
  }

  function Elems<T>(s: seq<T>): set<T>
  {
    set x | x in s
  }

  lemma {:induction false} ElemsSize<T>(s: seq<T>)
    ensures |Elems(s)| <= |s|
  {
    if s != [] {
      ElemsSize(s[1..]);
      assert Elems(s) == Elems(s[1..]) + {s[0]};
    }
  }

  ghost function AnyOf<T>(S: set<T>): (x: T)
    requires S != {}
    ensures x in S
  {
    var x :| x in S;
    x
  }

  lemma {:induction false} SubsetSize<T>(A: set<T>, B: set<T>)
    requires A <= B
    ensures |A| <= |B|
  {
    if A != {} {
      var x :| x in A;
      SubsetSize(A - {x}, B - {x});
    }
  }

  ghost predicate Distinct<T>(s: seq<T>)
  {
    forall i, j :: 0 <= i < j < |s| ==> s[i] != s[j]
  }

  lemma {:induction false} DistinctSize<T>(s: seq<T>)
    requires Distinct(s)
    ensures |Elems(s)| == |s|
  {
    if s != [] {
      var n := |s| - 1;
      DistinctSize(s[..n]);
      assert Elems(s) == Elems(s[..n]) + {s[n]};
    }
  }

  // ---- the ends of a set of numbers -----------------------------------------

  lemma {:induction false} LowestFrom(S: set<nat>, x: nat) returns (m: nat)
    requires x in S
    ensures m in S && forall k <- S :: m <= k
    decreases x
  {
    if y :| y in S && y < x {
      m := LowestFrom(S, y);
    } else {
      m := x;
    }
  }

  lemma {:induction false} GreatestFrom(S: set<nat>, x: nat) returns (m: nat)
    requires x in S
    ensures m in S && forall k <- S :: k <= m
    decreases set k <- S | k > x
  {
    if y :| y in S && y > x {
      var above, higher := set k <- S | k > x, set k <- S | k > y;
      assert y in above && y !in higher && higher <= above;
      m := GreatestFrom(S, y);
    } else {
      m := x;
    }
  }

  lemma LowestExists(S: set<nat>)
    requires S != {}
    ensures exists m :: m in S && forall k <- S :: m <= k
  {
    var x :| x in S;
    var m := LowestFrom(S, x);
  }

  lemma GreatestExists(S: set<nat>)
    requires S != {}
    ensures exists m :: m in S && forall k <- S :: k <= m
  {
    var x :| x in S;
    var m := GreatestFrom(S, x);
  }

  function Lowest(S: set<nat>): (m: nat)
    requires S != {}
    ensures m in S && forall k <- S :: m <= k
  {
    LowestExists(S);
    var m :| m in S && forall k <- S :: m <= k;
    m
  }

  function Greatest(S: set<nat>): (m: nat)
    requires S != {}
    ensures m in S && forall k <- S :: k <= m
  {
    GreatestExists(S);
    var m :| m in S && forall k <- S :: k <= m;
    m
  }
}
