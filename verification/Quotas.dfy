/** Largest-remainder allocation of a sample over strata. */
module Quotas {
  import opened Basics
  import opened Order

  /** One entry of the counts, which are listed in insertion order under distinct names. */
  datatype Stratum = Stratum(name: string, count: nat)

  predicate DistinctNames(counts: seq<Stratum>)
  {
    forall i, j :: 0 <= i < j < |counts| ==> counts[i].name != counts[j].name
  }

  function Total(counts: seq<Stratum>): nat
  {
    if counts == [] then 0 else Total(counts[..|counts| - 1]) + counts[|counts| - 1].count
  }

  /** The whole part of a stratum's exact share of `size`. */
  function Floor(s: Stratum, size: nat, total: nat): nat
    requires total > 0
  {
    s.count * size / total
  }

  function Rest(s: Stratum, size: nat, total: nat): nat
    requires total > 0
  {
    s.count * size % total
  }

  function Floors(counts: seq<Stratum>, size: nat, total: nat): nat
    requires total > 0
  {
    if counts == [] then 0
    else Floors(counts[..|counts| - 1], size, total) + Floor(counts[|counts| - 1], size, total)
  }

  /** Largest remainder first, then the larger stratum, then the name. */
  predicate Ahead(size: nat, total: nat, x: Stratum, y: Stratum)
    requires total > 0
  {
    var p, q := Rest(x, size, total), Rest(y, size, total);
    p > q || (p == q && (x.count > y.count || (x.count == y.count && Before(x.name, y.name))))
  }

  function AheadIn(size: nat, total: nat): (Stratum, Stratum) -> bool
    requires total > 0
  {
    (x: Stratum, y: Stratum) => Ahead(size, total, x, y)
  }

  lemma StrataOrdered(size: nat, total: nat, S: set<Stratum>)
    requires total > 0
    ensures TotalOn(AheadIn(size, total), S)
  {
    BeforeIsAnOrder();
  }

  ghost function Ranking(counts: seq<Stratum>, size: nat, total: nat): (r: seq<Stratum>)
    requires total > 0
  {
    StrataOrdered(size, total, Elems(counts));
    Sorted(AheadIn(size, total), Elems(counts))
  }

  /** The strata that get one more than their whole part. */
  ghost function Rounded(counts: seq<Stratum>, size: nat): set<Stratum>
    requires Total(counts) > 0
  {
    var total := Total(counts);
    var order := Ranking(counts, size, total);
    var left := size - Floors(counts, size, total);
    if 0 <= left <= |order| then Elems(order[..left]) else Elems(order)
  }

  ghost function Quota(counts: seq<Stratum>, size: nat, s: Stratum): nat
    requires Total(counts) > 0
  {
    Floor(s, size, Total(counts)) + (if s in Rounded(counts, size) then 1 else 0)
  }

  ghost function Granted(counts: seq<Stratum>, all: seq<Stratum>, size: nat): nat
    requires Total(all) > 0
  {
    if counts == [] then 0
    else Granted(counts[..|counts| - 1], all, size) + Quota(all, size, counts[|counts| - 1])
  }

  // ---- arithmetic -----------------------------------------------------------

  lemma FloorAndRest(s: Stratum, size: nat, total: nat)
    requires total > 0
    ensures s.count * size == total * Floor(s, size, total) + Rest(s, size, total) && Rest(s, size, total) < total
  {
  }

  function Rests(counts: seq<Stratum>, size: nat, total: nat): nat
    requires total > 0
  {
    if counts == [] then 0
    else Rests(counts[..|counts| - 1], size, total) + Rest(counts[|counts| - 1], size, total)
  }

  function FloorIn(size: nat, total: nat): Stratum -> nat
    requires total > 0
  {
    (s: Stratum) => Floor(s, size, total)
  }

  function RestIn(size: nat, total: nat): Stratum -> nat
    requires total > 0
  {
    (s: Stratum) => Rest(s, size, total)
  }

  ghost function SumOf(share: Stratum -> nat, counts: seq<Stratum>): nat
  {
    if counts == [] then 0 else SumOf(share, counts[..|counts| - 1]) + share(counts[|counts| - 1])
  }

  lemma {:induction false} SumOfFloors(counts: seq<Stratum>, size: nat, total: nat)
    requires total > 0
    ensures SumOf(FloorIn(size, total), counts) == Floors(counts, size, total)
  {
    if counts != [] {
      SumOfFloors(counts[..|counts| - 1], size, total);
    }
  }

  lemma {:induction false} SumOfRests(counts: seq<Stratum>, size: nat, total: nat)
    requires total > 0
    ensures SumOf(RestIn(size, total), counts) == Rests(counts, size, total)
  {
    if counts != [] {
      SumOfRests(counts[..|counts| - 1], size, total);
    }
  }

  predicate Splits(s: Stratum, size: nat, total: nat, f: nat, r: nat)
  {
    s.count * size == total * f + r
  }

  lemma AddParts(size: nat, total: nat, counted: nat, f: nat, r: nat, s: Stratum, g: nat, q: nat)
    requires counted * size == total * f + r && Splits(s, size, total, g, q)
    ensures (counted + s.count) * size == total * (f + g) + (r + q)
  {
  }

  /** What splits each stratum's share splits the sum of the shares. */
  lemma {:induction false} SplitsAdd(counts: seq<Stratum>, size: nat, total: nat, f: Stratum -> nat, r: Stratum -> nat)
    requires forall s <- counts :: Splits(s, size, total, f(s), r(s))
    ensures Total(counts) * size == total * SumOf(f, counts) + SumOf(r, counts)
  {
    if counts != [] {
      var n := |counts| - 1;
      var s := counts[n];
      assert s in counts && forall t <- counts[..n] :: t in counts;
      SplitsAdd(counts[..n], size, total, f, r);
      AddParts(size, total, Total(counts[..n]), SumOf(f, counts[..n]), SumOf(r, counts[..n]), s, f(s), r(s));
    } else {
      assert total * 0 == 0;
    }
  }

  /** Whole parts and remainders make up the size. */
  lemma PartsAdd(counts: seq<Stratum>, size: nat, total: nat)
    requires total > 0
    ensures Total(counts) * size == total * Floors(counts, size, total) + Rests(counts, size, total)
  {
    forall s | s in counts ensures Splits(s, size, total, FloorIn(size, total)(s), RestIn(size, total)(s)) {
    }
    SplitsAdd(counts, size, total, FloorIn(size, total), RestIn(size, total));
    SumOfFloors(counts, size, total);
    SumOfRests(counts, size, total);
  }

  /** The strata with a remainder. */
  ghost function Uneven(counts: seq<Stratum>, size: nat, total: nat): set<Stratum>
    requires total > 0
  {
    set s | s in counts && Rest(s, size, total) > 0
  }

  lemma BoundStep(r: nat, c: nat, n: nat, d: nat)
    requires r <= c * n && d <= n
    ensures r + d <= (c + if d > 0 then 1 else 0) * n
  {
  }

  ghost function Positive(share: Stratum -> nat, counts: seq<Stratum>): set<Stratum>
  {
    set s | s in counts && share(s) > 0
  }

  lemma NotRepeated(counts: seq<Stratum>, n: nat)
    requires DistinctNames(counts) && |counts| == n + 1
    ensures counts[n] !in counts[..n] && DistinctNames(counts[..n])
    ensures forall s :: s in counts <==> s in counts[..n] || s == counts[n]
  {
  }

  /** A sum of shares is at most their bound, for each positive one. */
  lemma {:induction false} SumBound(share: Stratum -> nat, counts: seq<Stratum>, cap: nat)
    requires DistinctNames(counts) && forall s <- counts :: share(s) <= cap
    ensures SumOf(share, counts) <= |Positive(share, counts)| * cap
  {
    if counts != [] {
      var n := |counts| - 1;
      var s := counts[n];
      NotRepeated(counts, n);
      SumBound(share, counts[..n], cap);
      PositiveStep(share, counts, n);
      BoundStep(SumOf(share, counts[..n]), |Positive(share, counts[..n])|, cap, share(s));
    }
  }

  lemma PositiveStep(share: Stratum -> nat, counts: seq<Stratum>, n: nat)
    requires DistinctNames(counts) && |counts| == n + 1
    ensures |Positive(share, counts)| == |Positive(share, counts[..n])| + (if share(counts[n]) > 0 then 1 else 0)
  {
    var before := Positive(share, counts[..n]);
    assert Positive(share, counts) == before + (if share(counts[n]) > 0 then {counts[n]} else {});
  }

  lemma RestsBound(counts: seq<Stratum>, size: nat, total: nat)
    requires total > 0 && DistinctNames(counts)
    ensures Rests(counts, size, total) <= |Uneven(counts, size, total)| * (total - 1)
  {
    forall s | s in counts ensures RestIn(size, total)(s) <= total - 1 {
    }
    SumBound(RestIn(size, total), counts, total - 1);
    SumOfRests(counts, size, total);
    assert Positive(RestIn(size, total), counts) == Uneven(counts, size, total);
  }

  lemma MulAtLeast(t: nat, d: nat)
    requires d >= 1
    ensures t * d >= t
  {
  }

  lemma DistributeInt(t: int, a: int, b: int)
    ensures t * (a + b) == t * a + t * b
  {
  }

  /** A product with t, when the other factor grows. */
  lemma MulGrows(t: nat, b: int, c: int)
    ensures b < c ==> t * b + t <= t * c
    ensures b <= c ==> t * b <= t * c
  {
    DistributeInt(t, b, c - b);
    if b < c {
      MulAtLeast(t, c - b);
    }
  }

  lemma LeftFits(total: nat, left: int, rests: nat, uneven: nat)
    requires total > 0 && total * left == rests && rests <= uneven * (total - 1)
    ensures 0 <= left <= uneven
  {
  }

  lemma LeftTimesTotal(total: nat, size: nat, floors: nat, left: int, rests: nat)
    requires total * size == total * floors + rests && left == size - floors
    ensures total * left == rests
  {
  }

  /** What is left after the whole parts is at most the number of strata with a remainder. */
  lemma LeftIsSmall(counts: seq<Stratum>, size: nat)
    requires DistinctNames(counts) && Total(counts) > 0
    ensures var left := size - Floors(counts, size, Total(counts));
      0 <= left <= |Uneven(counts, size, Total(counts))|
  {
    var total := Total(counts);
    PartsAdd(counts, size, total);
    RestsBound(counts, size, total);
    var floors, left := Floors(counts, size, total), size - Floors(counts, size, total);
    LeftTimesTotal(total, size, floors, left, Rests(counts, size, total));
    LeftFits(total, left, Rests(counts, size, total), |Uneven(counts, size, total)|);
  }

  /** Only strata ahead of a whole share have a remainder. */
  lemma UnevenFirst(counts: seq<Stratum>, size: nat, i: nat)
    requires Total(counts) > 0 && i < |Ranking(counts, size, Total(counts))|
    requires Rest(Ranking(counts, size, Total(counts))[i], size, Total(counts)) == 0
    ensures |Uneven(counts, size, Total(counts))| <= i
  {
    var total := Total(counts);
    var order := Ranking(counts, size, total);
    var uneven := Uneven(counts, size, total);
    StrataOrdered(size, total, Elems(counts));
    forall s | s in uneven ensures s in Elems(order[..i]) {
      assert s in order;
      var j :| 0 <= j < |order| && order[j] == s;
      assert Rest(order[j], size, total) > Rest(order[i], size, total);
      assert !(i < j);
      assert order[..i][j] == s;
    }
    ElemsSize(order[..i]);
    SubsetSize(uneven, Elems(order[..i]));
  }

  /** Exactly the strata ahead of the cut are rounded up, all of them have a remainder, and the cut is exact. */
  lemma RoundedAre(counts: seq<Stratum>, size: nat)
    requires DistinctNames(counts) && Total(counts) > 0
    ensures var total := Total(counts);
      var left := size - Floors(counts, size, total);
      && 0 <= left <= |Ranking(counts, size, total)|
      && Rounded(counts, size) == Elems(Ranking(counts, size, total)[..left])
      && |Rounded(counts, size)| == left
      && Rounded(counts, size) <= Uneven(counts, size, total)
  {
    var total := Total(counts);
    var left := size - Floors(counts, size, total);
    var less := AheadIn(size, total);
    var order := Ranking(counts, size, total);
    StrataOrdered(size, total, Elems(counts));
    SortedSize(less, Elems(counts));
    LeftIsSmall(counts, size);
    var uneven := Uneven(counts, size, total);
    SubsetSize(uneven, Elems(counts));
    DistinctSize(order[..left]);
    forall i | 0 <= i < left ensures order[i] in uneven {
      assert order[i] in order;
      if Rest(order[i], size, total) == 0 {
        UnevenFirst(counts, size, i);
      }
    }
  }

  // ---- what the allocation guarantees ---------------------------------------

  lemma {:induction false} GrantedIs(counts: seq<Stratum>, all: seq<Stratum>, size: nat)
    requires Total(all) > 0 && DistinctNames(counts)
    ensures Granted(counts, all, size)
            == Floors(counts, size, Total(all)) + |Elems(counts) * Rounded(all, size)|
  {
    if counts != [] {
      var n := |counts| - 1;
      var s := counts[n];
      GrantedIs(counts[..n], all, size);
      var before, X := Elems(counts[..n]), Rounded(all, size);
      assert s !in before;
      assert Elems(counts) == before + {s};
      if s in X {
        assert Elems(counts) * X == before * X + {s};
      } else {
        assert Elems(counts) * X == before * X;
      }
    }
  }

  /** The quotas add up to exactly the requested size. */
  lemma QuotasAddUp(counts: seq<Stratum>, size: nat)
    requires DistinctNames(counts) && Total(counts) > 0
    ensures Granted(counts, counts, size) == size
  {
    GrantedIs(counts, counts, size);
    RoundedAre(counts, size);
    assert Elems(counts) * Rounded(counts, size) == Rounded(counts, size);
  }

  /** q is the floor or the ceiling of share / total. */
  predicate NearShare(total: nat, share: nat, q: nat)
  {
    share - total < total * q < share + total
  }

  predicate ExactShare(total: nat, share: nat, q: nat)
  {
    total * q == share
  }

  lemma ShareBounds(total: nat, share: nat, f: nat, rest: nat, q: nat)
    requires total > 0 && share == total * f + rest && rest < total
    requires q == f || (q == f + 1 && rest > 0)
    ensures NearShare(total, share, q)
    ensures rest == 0 ==> ExactShare(total, share, q)
  {
  }

  lemma QuotaForms(counts: seq<Stratum>, size: nat, s: Stratum)
    requires DistinctNames(counts) && Total(counts) > 0 && s in counts
    ensures var q, f, total := Quota(counts, size, s), Floor(s, size, Total(counts)), Total(counts);
      && (q == f || (q == f + 1 && Rest(s, size, total) > 0))
  {
    RoundedAre(counts, size);
  }

  /** Each quota is the floor or the ceiling of the exact share, and exact when the share is whole. */
  lemma QuotaIsShare(counts: seq<Stratum>, size: nat, s: Stratum)
    requires DistinctNames(counts) && Total(counts) > 0 && s in counts
    ensures NearShare(Total(counts), s.count * size, Quota(counts, size, s))
    ensures Rest(s, size, Total(counts)) == 0 ==> ExactShare(Total(counts), s.count * size, Quota(counts, size, s))
  {
    var total, share, f, rest, q := Parts(counts, size, s);
    ShareBounds(total, share, f, rest, q);
  }

  lemma Parts(counts: seq<Stratum>, size: nat, s: Stratum) returns (total: nat, share: nat, f: nat, rest: nat, q: nat)
    requires DistinctNames(counts) && Total(counts) > 0 && s in counts
    ensures total == Total(counts) && share == s.count * size && q == Quota(counts, size, s)
    ensures rest == Rest(s, size, total)
    ensures share == total * f + rest && rest < total
    ensures q == f || (q == f + 1 && rest > 0)
  {
    total, share, q := Total(counts), s.count * size, Quota(counts, size, s);
    f, rest := Floor(s, size, total), Rest(s, size, total);
    QuotaForms(counts, size, s);
    FloorAndRest(s, size, total);
  }

  lemma NoMore(total: nat, count: nat, size: nat, q: nat, rest: nat, f: nat)
    requires total > 0 && size <= total && NearShare(total, count * size, q)
    requires count * size == total * f + rest && rest < total
    requires rest == 0 ==> ExactShare(total, count * size, q)
    ensures q <= count
  {
    MulGrows(count, size, total);
    MulGrows(total, count, q);
    MulGrows(total, f, count);
    MulGrows(total, count, f);
  }

  /** No stratum is asked for more than it has. */
  lemma QuotaWithinCount(counts: seq<Stratum>, size: nat, s: Stratum)
    requires DistinctNames(counts) && Total(counts) > 0 && s in counts && size <= Total(counts)
    ensures Quota(counts, size, s) <= s.count
  {
    var total := Total(counts);
    QuotaIsShare(counts, size, s);
    FloorAndRest(s, size, total);
    NoMore(total, s.count, size, Quota(counts, size, s), Rest(s, size, total), Floor(s, size, total));
  }

  lemma {:induction false} GrantedWithin(counts: seq<Stratum>, all: seq<Stratum>, size: nat)
    requires Total(all) > 0 && forall s <- counts :: Quota(all, size, s) <= s.count
    ensures Granted(counts, all, size) <= Total(counts)
  {
    if counts != [] {
      var n := |counts| - 1;
      assert counts[n] in counts && forall s <- counts[..n] :: s in counts;
      GrantedWithin(counts[..n], all, size);
    }
  }

  /** Sampling the quotas draws more than some stratum has exactly when more is asked for than there is. */
  lemma OverdrawsExactlyWhenTooLarge(counts: seq<Stratum>, size: nat)
    requires DistinctNames(counts) && Total(counts) > 0
    ensures (exists s <- counts :: Quota(counts, size, s) > s.count) <==> size > Total(counts)
  {
    if size <= Total(counts) {
      forall s | s in counts ensures Quota(counts, size, s) <= s.count {
        QuotaWithinCount(counts, size, s);
      }
    } else {
      QuotasAddUp(counts, size);
      if forall s <- counts :: Quota(counts, size, s) <= s.count {
        GrantedWithin(counts, counts, size);
      }
    }
  }

  lemma AheadOfTheCut<T(!new)>(less: (T, T) -> bool, order: seq<T>, left: nat, s: T, t: T)
    requires Ascending(less, order) && left <= |order| && s in order[..left] && t in order && t !in order[..left]
    ensures less(s, t)
  {
  }

  /** A stratum rounded up is ahead of every stratum that is not. */
  lemma RoundedByRank(counts: seq<Stratum>, size: nat, s: Stratum, t: Stratum)
    requires DistinctNames(counts) && Total(counts) > 0 && s in counts && t in counts
    requires s in Rounded(counts, size) && t !in Rounded(counts, size)
    ensures Ahead(size, Total(counts), s, t)
  {
    var total := Total(counts);
    RoundedAre(counts, size);
    StrataOrdered(size, total, Elems(counts));
    AheadOfTheCut(AheadIn(size, total), Ranking(counts, size, total), size - Floors(counts, size, total), s, t);
  }

  // ---- the loops ------------------------------------------------------------

  method SumCounts(counts: seq<Stratum>) returns (total: nat)
    ensures total == Total(counts)
  {
    total := 0;
    for i := 0 to |counts|
      invariant total == Total(counts[..i])
    {
      assert counts[..i + 1][..i] == counts[..i];
      total := total + counts[i].count;
    }
    assert counts[..|counts|] == counts;
  }

  /** quotas holds the share of each of the counts, and no other name. */
  ghost predicate Tabulated(counts: seq<Stratum>, share: Stratum -> nat, quotas: map<string, nat>)
  {
    && (forall s <- counts :: s.name in quotas && quotas[s.name] == share(s))
    && (forall k <- quotas :: exists s :: s in counts && s.name == k)
  }

  /** The dictionary of shares and their sum. */
  method Tabulate(counts: seq<Stratum>, share: Stratum -> nat) returns (quotas: map<string, nat>, sum: nat)
    requires DistinctNames(counts)
    ensures Tabulated(counts, share, quotas)
    ensures sum == SumOf(share, counts)
  {
    quotas, sum := map[], 0;
    for i := 0 to |counts|
      invariant Tabulated(counts[..i], share, quotas)
      invariant sum == SumOf(share, counts[..i])
    {
      assert counts[..i + 1][..i] == counts[..i];
      quotas := quotas[counts[i].name := share(counts[i])];
      sum := sum + share(counts[i]);
    }
    assert counts[..|counts|] == counts;
  }

  /** One more for each of the first `left` strata of `order`. */
  method RoundUp(counts: seq<Stratum>, floors: map<string, nat>, order: seq<Stratum>, left: nat)
    returns (quotas: map<string, nat>)
    requires DistinctNames(counts) && floors.Keys == set s <- counts :: s.name
    requires left <= |order| && forall i, j :: 0 <= i < j < |order| ==> order[i] != order[j]
    requires forall s <- order :: s in counts
    ensures quotas.Keys == set s <- counts :: s.name
    ensures forall s <- counts :: quotas[s.name] == floors[s.name] + (if s in order[..left] then 1 else 0)
  {
    quotas := floors;
    for k := 0 to left
      invariant quotas.Keys == set s <- counts :: s.name
      invariant forall s <- counts :: quotas[s.name] == floors[s.name] + (if s in order[..k] then 1 else 0)
    {
      var s := order[k];
      assert s in order && s !in order[..k];
      assert order[..k + 1] == order[..k] + [s];
      forall t | t in counts && t != s ensures t.name != s.name {
      }
      quotas := quotas[s.name := quotas[s.name] + 1];
    }
  }

  /** `type_quotas`: None when the program would divide by a zero total. */
  method TypeQuotas(counts: seq<Stratum>, size: nat) returns (r: Option<map<string, nat>>)
    requires DistinctNames(counts)
    ensures r.None? <==> counts != [] && Total(counts) == 0
    ensures counts == [] ==> r == Some(map[])
    ensures r.Some? ==> r.value.Keys == set s <- counts :: s.name
    ensures r.Some? && counts != [] ==> forall s <- counts :: r.value[s.name] == Quota(counts, size, s)
  {
    var total := SumCounts(counts);
    if total == 0 {
      return if counts == [] then Some(map[]) else None;
    }
    var floors, sum := Tabulate(counts, FloorIn(size, total));
    assert floors.Keys == set s <- counts :: s.name;
    SumOfFloors(counts, size, total);
    StrataOrdered(size, total, Elems(counts));
    var order := Sort(AheadIn(size, total), Elems(counts));
    RoundedAre(counts, size);
    SortedSize(AheadIn(size, total), Elems(counts));
    var quotas := RoundUp(counts, floors, order, size - sum);
    forall s | s in counts ensures quotas[s.name] == Quota(counts, size, s) {
      QuotaIs(counts, size, s, quotas[s.name], order[..size - sum]);
    }
    r := Some(quotas);
  }

  lemma QuotaIs(counts: seq<Stratum>, size: nat, s: Stratum, q: nat, up: seq<Stratum>)
    requires Total(counts) > 0 && Rounded(counts, size) == Elems(up)
    requires q == Floor(s, size, Total(counts)) + (if s in up then 1 else 0)
    ensures q == Quota(counts, size, s)
  {
  }
}
