/** The ingredient breakdown (src/components/nutriscan/IngredientList.tsx): the
    ingredients sorted worst first, the per-level counts shown as badges and
    the label of each level. */
module IngredientList {
  import opened Types

  /** `order.indexOf(level)` for `order = ['danger', 'warning', 'caution', 'safe']`. */
  function Rank(l: HealthLevel): nat {
    match l
    case Danger => 0
    case Warning => 1
    case Caution => 2
    case Safe => 3
  }

  const SeverityOrder: seq<HealthLevel> := [Danger, Warning, Caution, Safe]

  lemma RankIsPositionInOrder(l: HealthLevel)
    ensures Rank(l) < |SeverityOrder| && SeverityOrder[Rank(l)] == l
  {
  }

  /** `levelConfig[level].label` */
  function LevelLabel(l: HealthLevel): string {
    match l
    case Safe => "Safe"
    case Caution => "Moderate"
    case Warning => "Caution"
    case Danger => "Concern"
  }

  /** Every level has a label of its own. */
  lemma LabelsDistinct(l: HealthLevel, m: HealthLevel)
    ensures LevelLabel(l) == LevelLabel(m) ==> l == m
  {
  }

  /** `ingredients.filter(i => i.level === level)` */
  function OfLevel(xs: seq<IngredientAnalysis>, l: HealthLevel): (r: seq<IngredientAnalysis>)
    ensures |r| <= |xs|
    ensures forall k :: 0 <= k < |r| ==> r[k].level == l
    ensures forall k :: 0 <= k < |xs| && xs[k].level == l ==> xs[k] in r
    ensures forall x :: x in r ==> x in xs
    decreases |xs|
  {
    if xs == [] then []
    else if xs[0].level == l then [xs[0]] + OfLevel(xs[1..], l)
    else OfLevel(xs[1..], l)
  }

  /** `countByLevel(level)` */
  function CountByLevel(xs: seq<IngredientAnalysis>, l: HealthLevel): nat {
    |OfLevel(xs, l)|
  }

  /** `[...ingredients].sort(byRank)`. `Array.prototype.sort` is stable, and a
      stable sort on the four ranks lists the items of each level, in their
      original order, level after level; the lemmas below show this result is
      sorted, a permutation of the input, and stable. */
  function SortBySeverity(xs: seq<IngredientAnalysis>): seq<IngredientAnalysis> {
    OfLevel(xs, Danger) + OfLevel(xs, Warning) + OfLevel(xs, Caution) + OfLevel(xs, Safe)
  }

  predicate SortedByRank(s: seq<IngredientAnalysis>) {
    forall i, j :: 0 <= i < j < |s| ==> Rank(s[i].level) <= Rank(s[j].level)
  }

  predicate RanksWithin(s: seq<IngredientAnalysis>, lo: nat, hi: nat) {
    forall k :: 0 <= k < |s| ==> lo <= Rank(s[k].level) <= hi
  }

  lemma SortedAppend(a: seq<IngredientAnalysis>, b: seq<IngredientAnalysis>, m: nat, hi: nat)
    requires SortedByRank(a) && SortedByRank(b)
    requires m <= hi && RanksWithin(a, 0, m) && RanksWithin(b, m, hi)
    ensures SortedByRank(a + b) && RanksWithin(a + b, 0, hi)
  {
    var s := a + b;
    forall i, j | 0 <= i < j < |s| ensures Rank(s[i].level) <= Rank(s[j].level) {
      if j < |a| {
        assert s[i] == a[i] && s[j] == a[j];
      } else if i >= |a| {
        assert s[i] == b[i - |a|] && s[j] == b[j - |a|];
      } else {
        assert s[i] == a[i] && s[j] == b[j - |a|];
      }
    }
    forall k | 0 <= k < |s| ensures 0 <= Rank(s[k].level) <= hi {
      if k < |a| { assert s[k] == a[k]; } else { assert s[k] == b[k - |a|]; }
    }
  }

  /** The sorted list has non-decreasing rank: danger, then warning, then
      caution, then safe. */
  lemma SortIsSorted(xs: seq<IngredientAnalysis>)
    ensures SortedByRank(SortBySeverity(xs))
  {
    var d, w, c, s := OfLevel(xs, Danger), OfLevel(xs, Warning), OfLevel(xs, Caution), OfLevel(xs, Safe);
    assert RanksWithin(d, 0, 0) && RanksWithin(w, 1, 1) && RanksWithin(c, 2, 2) && RanksWithin(s, 3, 3);
    SortedAppend(d, w, 0, 1);
    SortedAppend(d + w, c, 1, 2);
    SortedAppend(d + w + c, s, 2, 3);
  }

  /** One item more adds it to its own level's bucket only. */
  lemma OfLevelCons(xs: seq<IngredientAnalysis>, l: HealthLevel)
    requires xs != []
    ensures multiset(OfLevel(xs, l))
         == multiset(OfLevel(xs[1..], l)) + (if xs[0].level == l then multiset{xs[0]} else multiset{})
  {
  }

  /** The four buckets together, as a multiset. */
  function BucketItems(xs: seq<IngredientAnalysis>): multiset<IngredientAnalysis> {
    multiset(OfLevel(xs, Danger)) + multiset(OfLevel(xs, Warning))
    + multiset(OfLevel(xs, Caution)) + multiset(OfLevel(xs, Safe))
  }

  /** Taking off the first item takes it off exactly one bucket. */
  lemma BucketsCons(xs: seq<IngredientAnalysis>)
    requires xs != []
    ensures BucketItems(xs) == BucketItems(xs[1..]) + multiset{xs[0]}
  {
    var t, x := xs[1..], multiset{xs[0]};
    var d, w, c, s := multiset(OfLevel(t, Danger)), multiset(OfLevel(t, Warning)),
                      multiset(OfLevel(t, Caution)), multiset(OfLevel(t, Safe));
    assert BucketItems(t) == d + w + c + s;
    OfLevelCons(xs, Danger);
    OfLevelCons(xs, Warning);
    OfLevelCons(xs, Caution);
    OfLevelCons(xs, Safe);
    match xs[0].level {
      case Danger => AddToBucket(d, w, c, s, x, 0);
      case Warning => AddToBucket(d, w, c, s, x, 1);
      case Caution => AddToBucket(d, w, c, s, x, 2);
      case Safe => AddToBucket(d, w, c, s, x, 3);
    }
  }

  /** Adding `x` to any one of four multisets adds it to their sum. */
  lemma AddToBucket(d: multiset<IngredientAnalysis>, w: multiset<IngredientAnalysis>,
                    c: multiset<IngredientAnalysis>, s: multiset<IngredientAnalysis>,
                    x: multiset<IngredientAnalysis>, i: nat)
    requires i < 4
    ensures (if i == 0 then d + x else d) + (if i == 1 then w + x else w)
          + (if i == 2 then c + x else c) + (if i == 3 then s + x else s) == d + w + c + s + x
  {
  }

  lemma MultisetCons(xs: seq<IngredientAnalysis>)
    requires xs != []
    ensures multiset(xs) == multiset(xs[1..]) + multiset{xs[0]}
  {
    assert xs == [xs[0]] + xs[1..];
  }

  lemma {:induction false} BucketsHoldAll(xs: seq<IngredientAnalysis>)
    ensures BucketItems(xs) == multiset(xs)
    decreases |xs|
  {
    if xs != [] {
      BucketsHoldAll(xs[1..]);
      BucketsCons(xs);
      MultisetCons(xs);
    }
  }

  /** The sorted list holds exactly the input's items, as many times each. */
  lemma SortIsPermutation(xs: seq<IngredientAnalysis>)
    ensures multiset(SortBySeverity(xs)) == multiset(xs)
  {
    BucketsHoldAll(xs);
    assert multiset(SortBySeverity(xs)) == BucketItems(xs);
  }

  lemma {:induction false} OfLevelAppend(a: seq<IngredientAnalysis>, b: seq<IngredientAnalysis>, l: HealthLevel)
    ensures OfLevel(a + b, l) == OfLevel(a, l) + OfLevel(b, l)
    decreases |a|
  {
    if a == [] {
      assert a + b == b;
    } else {
      assert (a + b)[0] == a[0];
      assert (a + b)[1..] == a[1..] + b;
      OfLevelAppend(a[1..], b, l);
    }
  }

  lemma {:induction false} OfLevelOfLevel(xs: seq<IngredientAnalysis>, l: HealthLevel, m: HealthLevel)
    ensures OfLevel(OfLevel(xs, m), l) == if l == m then OfLevel(xs, m) else []
    decreases |xs|
  {
    if xs != [] {
      OfLevelOfLevel(xs[1..], l, m);
      if xs[0].level == m {
        assert OfLevel(xs, m) == [xs[0]] + OfLevel(xs[1..], m);
        assert ([xs[0]] + OfLevel(xs[1..], m))[1..] == OfLevel(xs[1..], m);
      }
    }
  }

  lemma OfLevelAppend4(a: seq<IngredientAnalysis>, b: seq<IngredientAnalysis>,
                       c: seq<IngredientAnalysis>, d: seq<IngredientAnalysis>, l: HealthLevel)
    ensures OfLevel(a + b + c + d, l) == OfLevel(a, l) + OfLevel(b, l) + OfLevel(c, l) + OfLevel(d, l)
  {
    OfLevelAppend(a + b + c, d, l);
    OfLevelAppend(a + b, c, l);
    OfLevelAppend(a, b, l);
  }

  /** Four pieces of which only the `i`-th is non-empty concatenate to it. */
  lemma OnlyOnePiece<T>(a: seq<T>, b: seq<T>, c: seq<T>, d: seq<T>, i: nat, x: seq<T>)
    requires i < 4
    requires a == (if i == 0 then x else []) && b == (if i == 1 then x else [])
    requires c == (if i == 2 then x else []) && d == (if i == 3 then x else [])
    ensures a + b + c + d == x
  {
  }

  /** Items of the same level keep their original relative order. */
  lemma SortIsStable(xs: seq<IngredientAnalysis>, l: HealthLevel)
    ensures OfLevel(SortBySeverity(xs), l) == OfLevel(xs, l)
  {
    OfLevelAppend4(OfLevel(xs, Danger), OfLevel(xs, Warning), OfLevel(xs, Caution), OfLevel(xs, Safe), l);
    BucketsFiltered(xs, l);
  }

  /** Filtering the four buckets by `l` leaves only the bucket of `l`. */
  lemma BucketsFiltered(xs: seq<IngredientAnalysis>, l: HealthLevel)
    ensures OfLevel(OfLevel(xs, Danger), l) + OfLevel(OfLevel(xs, Warning), l)
          + OfLevel(OfLevel(xs, Caution), l) + OfLevel(OfLevel(xs, Safe), l) == OfLevel(xs, l)
  {
    OfLevelOfLevel(xs, l, Danger);
    OfLevelOfLevel(xs, l, Warning);
    OfLevelOfLevel(xs, l, Caution);
    OfLevelOfLevel(xs, l, Safe);
    OnlyOnePiece(OfLevel(OfLevel(xs, Danger), l), OfLevel(OfLevel(xs, Warning), l),
                 OfLevel(OfLevel(xs, Caution), l), OfLevel(OfLevel(xs, Safe), l), Rank(l), OfLevel(xs, l));
  }

  /** The positions of the items of level `l`. */
  function Positions(xs: seq<IngredientAnalysis>, l: HealthLevel): set<nat> {
    set k: nat | k < |xs| && xs[k].level == l
  }

  /** One item more adds its own position when it has level `l`. */
  lemma PositionsSnoc(init: seq<IngredientAnalysis>, x: IngredientAnalysis, l: HealthLevel)
    ensures Positions(init + [x], l) == Positions(init, l) + (if x.level == l then {|init|} else {})
  {
    var xs := init + [x];
    forall k | k in Positions(xs, l)
      ensures k in Positions(init, l) + (if x.level == l then {|init|} else {})
    {
      if k < |init| { assert xs[k] == init[k]; }
    }
    forall k | k in Positions(init, l) + (if x.level == l then {|init|} else {})
      ensures k in Positions(xs, l)
    {
      if k < |init| { assert xs[k] == init[k]; }
    }
  }

  /** `countByLevel(l)` is the number of positions holding an item of level `l`. */
  lemma {:induction false} CountIsPositions(xs: seq<IngredientAnalysis>, l: HealthLevel)
    ensures CountByLevel(xs, l) == |Positions(xs, l)|
    decreases |xs|
  {
    if xs != [] {
      var init, x := xs[..|xs| - 1], xs[|xs| - 1];
      assert xs == init + [x];
      CountIsPositions(init, l);
      CountSnoc(init, x, l);
      PositionsCountSnoc(init, x, l);
    }
  }

  /** One item more counts once for its own level. */
  lemma CountSnoc(init: seq<IngredientAnalysis>, x: IngredientAnalysis, l: HealthLevel)
    ensures CountByLevel(init + [x], l) == CountByLevel(init, l) + (if x.level == l then 1 else 0)
  {
    OfLevelAppend(init, [x], l);
  }

  /** One item more adds one position for its own level. */
  lemma PositionsCountSnoc(init: seq<IngredientAnalysis>, x: IngredientAnalysis, l: HealthLevel)
    ensures |Positions(init + [x], l)| == |Positions(init, l)| + (if x.level == l then 1 else 0)
  {
    PositionsSnoc(init, x, l);
    assert |init| !in Positions(init, l);
  }

  /** The four counts add up to the number of ingredients. */
  lemma CountsSum(xs: seq<IngredientAnalysis>)
    ensures CountByLevel(xs, Safe) + CountByLevel(xs, Caution) + CountByLevel(xs, Warning)
          + CountByLevel(xs, Danger) == |xs|
  {
    SortIsPermutation(xs);
    assert |multiset(SortBySeverity(xs))| == |multiset(xs)|;
  }

  /** One summary badge: its level and the count it shows. */
  datatype Badge = Badge(level: HealthLevel, count: nat)

  /** The word after a badge's count. */
  function BadgeWord(l: HealthLevel): string {
    match l
    case Safe => "safe"
    case Caution => "moderate"
    case Warning => "caution"
    case Danger => "concern"
  }

  /** The badge of level `l`, or none when no ingredient has that level. */
  function BadgeFor(xs: seq<IngredientAnalysis>, l: HealthLevel): seq<Badge> {
    if CountByLevel(xs, l) > 0 then [Badge(l, CountByLevel(xs, l))] else []
  }

  /** The badges in the order they are drawn (safe, moderate, caution,
      concern); a level's badge is drawn, with that level's count, exactly when
      the count is positive. */
  function Badges(xs: seq<IngredientAnalysis>): (r: seq<Badge>)
    ensures forall b :: b in r ==> b.count == CountByLevel(xs, b.level) && b.count > 0
    ensures forall l :: Badge(l, CountByLevel(xs, l)) in r <==> CountByLevel(xs, l) > 0
  {
    BadgeFor(xs, Safe) + BadgeFor(xs, Caution) + BadgeFor(xs, Warning) + BadgeFor(xs, Danger)
  }

  /** A non-empty list always shows at least one badge. */
  lemma SomeBadgeShown(xs: seq<IngredientAnalysis>)
    requires xs != []
    ensures Badges(xs) != []
  {
    CountsSum(xs);
    var l := xs[0].level;
    assert xs[0] in OfLevel(xs, l);
    assert Badge(l, CountByLevel(xs, l)) in Badges(xs);
  }
}
