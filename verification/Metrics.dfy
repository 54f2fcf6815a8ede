/**
 Page-level ranking metrics: gains, recall, reciprocal rank and normalized discounted gain.

 `log2` is a parameter: positive from two on, and strictly increasing.
 */
module Metrics {
  import opened Wrappers
  import opened Basics

  ghost predicate LogLike(log2: nat -> real) {
    (forall n {:trigger log2(n)} | n >= 2 :: log2(n) > 0.0)
    && (forall m, n {:trigger log2(m), log2(n)} | 2 <= m < n :: log2(m) < log2(n))
  }

  // ---------------------------------------------------------------------- gains

  /** One for the first occurrence of a gold page, zero otherwise. */
  function Gains(pages: seq<int>, gold: set<int>): (g: seq<nat>)
    ensures |g| == |pages|
  {
    if pages == [] then []
    else
      var n := |pages| - 1;
      Gains(pages[..n], gold) + [if pages[n] in gold && pages[n] !in pages[..n] then 1 else 0]
  }

  method RelevanceGains(retrieved: seq<int>, gold: set<int>, cutoff: nat) returns (gains: seq<nat>)
    ensures gains == Gains(Take(retrieved, cutoff), gold)
  {
    var pages := Take(retrieved, cutoff);
    var seen: set<int> := {};
    gains := [];
    for i := 0 to |pages|
      invariant gains == Gains(pages[..i], gold)
      invariant forall x {:trigger x in seen} :: x in seen <==> x in gold && x in pages[..i]
    {
      var page := pages[i];
      assert pages[..i + 1][..i] == pages[..i];
      var relevant := page in gold && page !in seen;
      gains := gains + [if relevant then 1 else 0];
      if relevant {
        seen := seen + {page};
      }
    }
    assert pages[..|pages|] == pages;
  }

  function Sum(g: seq<nat>): nat {
    if g == [] then 0 else Sum(g[..|g| - 1]) + g[|g| - 1]
  }

  function RetrievedGold(pages: seq<int>, gold: set<int>): set<int> {
    set x | x in gold && x in pages
  }

  /** Each retrieved gold page is counted once. */
  lemma {:induction false} GainsCountGold(pages: seq<int>, gold: set<int>)
    ensures Sum(Gains(pages, gold)) == |RetrievedGold(pages, gold)|
    ensures forall i | 0 <= i < |pages| :: Gains(pages, gold)[i] <= 1
    ensures |RetrievedGold(pages, gold)| <= Min(|gold|, |pages|)
  {
    if pages == [] {
      assert RetrievedGold(pages, gold) == {};
    } else {
      var n := |pages| - 1;
      var earlier, page := pages[..n], pages[n];
      GainsCountGold(earlier, gold);
      OnePageMore(earlier, page, gold);
      assert pages == earlier + [page];
      assert Gains(pages, gold)[..n] == Gains(earlier, gold);
    }
  }

  lemma OnePageMore(pages: seq<int>, page: int, gold: set<int>)
    ensures |RetrievedGold(pages + [page], gold)|
            == |RetrievedGold(pages, gold)| + if page in gold && page !in pages then 1 else 0
    ensures |RetrievedGold(pages + [page], gold)| <= |gold|
  {
    var before, after := RetrievedGold(pages, gold), RetrievedGold(pages + [page], gold);
    if page in gold {
      assert after == before + {page};
      assert page in before <==> page in pages;
      if page in pages {
        assert after == before;
      } else {
        assert |before + {page}| == |before| + 1;
      }
    } else {
      assert after == before;
    }
    SubsetSize(after, gold);
  }

  // ----------------------------------------------------------------- discounted gain

  /** The discount of a rank. */
  function Discount(log2: nat -> real, rank: nat): real {
    if log2(rank + 1) > 0.0 then 1.0 / log2(rank + 1) else 0.0
  }

  function Dcg(log2: nat -> real, g: seq<nat>): real {
    if g == [] then 0.0 else Dcg(log2, g[..|g| - 1]) + Product(g[|g| - 1], Discount(log2, |g|))
  }

  function Product(gain: nat, discount: real): (r: real)
    ensures gain == 0 ==> r == 0.0
    ensures gain == 1 ==> r == discount
  {
    gain as real * discount
  }

  /** The gain of an ideal ranking with `count` relevant pages. */
  function Ideal(log2: nat -> real, count: nat): real {
    if count == 0 then 0.0 else Ideal(log2, count - 1) + Discount(log2, count)
  }

  lemma DiscountFalls(log2: nat -> real, a: nat, b: nat)
    requires LogLike(log2) && 1 <= a <= b
    ensures Discount(log2, a) >= Discount(log2, b) > 0.0
    ensures a < b ==> Discount(log2, a) > Discount(log2, b)
  {
    var x, y := log2(a + 1), log2(b + 1);
    assert x > 0.0 && y > 0.0;
    var p, q := 1.0 / x, 1.0 / y;
    assert p * x == 1.0 && q * y == 1.0;
    assert q > 0.0;
    assert (p - q) * x == q * (y - x);
  }

  /** All the gain comes first. */
  predicate FrontLoaded(g: seq<nat>) {
    forall i, j | 0 <= i < j < |g| :: g[i] >= g[j]
  }

  lemma {:induction false} SumOfBits(g: seq<nat>)
    requires forall i | 0 <= i < |g| :: g[i] <= 1
    ensures Sum(g) <= |g|
    ensures Sum(g) == |g| ==> forall i | 0 <= i < |g| :: g[i] == 1
    ensures (forall i | 0 <= i < |g| :: g[i] == 1) ==> Sum(g) == |g|
  {
    if g != [] {
      SumOfBits(g[..|g| - 1]);
      assert forall i | 0 <= i < |g| - 1 :: g[..|g| - 1][i] == g[i];
    }
  }

  /** Rearrangement: a given total gain is worth most when it comes first, and only then. */
  lemma {:induction false} Rearrangement(log2: nat -> real, g: seq<nat>)
    requires LogLike(log2) && forall i | 0 <= i < |g| :: g[i] <= 1
    ensures 0.0 <= Dcg(log2, g) <= Ideal(log2, Sum(g))
    ensures Dcg(log2, g) == Ideal(log2, Sum(g)) <==> FrontLoaded(g)
  {
    if g != [] {
      var n := |g| - 1;
      var front := g[..n];
      assert forall i | 0 <= i < n :: front[i] == g[i];
      Rearrangement(log2, front);
      assert g == front + [g[n]];
      if g[n] == 1 {
        LastGain(log2, g, front);
      } else {
        LastZero(log2, g, front);
      }
    }
  }

  lemma LastGain(log2: nat -> real, g: seq<nat>, front: seq<nat>)
    requires LogLike(log2) && g == front + [1] && forall i | 0 <= i < |front| :: front[i] <= 1
    requires 0.0 <= Dcg(log2, front) <= Ideal(log2, Sum(front))
    requires Dcg(log2, front) == Ideal(log2, Sum(front)) <==> FrontLoaded(front)
    ensures 0.0 <= Dcg(log2, g) <= Ideal(log2, Sum(g))
    ensures Dcg(log2, g) == Ideal(log2, Sum(g)) <==> FrontLoaded(g)
  {
    assert g[..|front|] == front;
    var t := Sum(front) + 1;
    assert Sum(g) == t;
    SumOfBits(front);
    DiscountFalls(log2, t, |g|);
    assert Dcg(log2, g) == Dcg(log2, front) + Discount(log2, |g|);
    assert Ideal(log2, t) == Ideal(log2, t - 1) + Discount(log2, t);
    if FrontLoaded(g) {
      assert forall i | 0 <= i < |front| :: g[i] >= g[|front|];
      assert t == |g|;
    }
  }

  lemma LastZero(log2: nat -> real, g: seq<nat>, front: seq<nat>)
    requires g == front + [0]
    ensures Dcg(log2, g) == Dcg(log2, front) && Sum(g) == Sum(front)
    ensures FrontLoaded(g) <==> FrontLoaded(front)
  {
    assert g[..|front|] == front;
    assert forall i | 0 <= i < |front| :: g[i] == front[i];
  }

  lemma {:induction false} IdealGrows(log2: nat -> real, a: nat, b: nat)
    requires LogLike(log2) && a <= b
    ensures Ideal(log2, a) <= Ideal(log2, b)
    ensures a < b ==> Ideal(log2, a) < Ideal(log2, b)
  {
    if a < b {
      IdealGrows(log2, a, b - 1);
      DiscountFalls(log2, b, b);
    }
  }

  // --------------------------------------------------------------------- metrics

  datatype Scores = Scores(hit1: real, hit3: real, hit5: real, recall: real, mrr: real, ndcg: real, firstRank: Option<nat>)

  /** The rank of the first positive gain, from one. */
  function FirstRelevant(g: seq<nat>): Option<nat> {
    if g == [] then None
    else
      var first := FirstRelevant(g[..|g| - 1]);
      if first.Some? then first else if g[|g| - 1] > 0 then Some(|g|) else None
  }

  function Hit(pages: seq<int>, gold: set<int>, k: nat): real {
    if RetrievedGold(Take(pages, k), gold) != {} then 1.0 else 0.0
  }

  function EvaluateRanking(log2: nat -> real, retrieved: seq<int>, gold: set<int>, cutoff: int): Result<Scores> {
    if cutoff <= 0 || gold == {} then Err(ValueError)
    else
      var pages := Take(retrieved, cutoff);
      var gains := Gains(pages, gold);
      var first := FirstRelevant(gains);
      var ideal := Ideal(log2, Min(|gold|, cutoff));
      Ok(Scores(Hit(retrieved, gold, 1), Hit(retrieved, gold, 3), Hit(retrieved, gold, 5),
                |RetrievedGold(pages, gold)| as real / |gold| as real,
                if first.None? || first.value == 0 then 0.0 else 1.0 / first.value as real,
                if ideal == 0.0 then 0.0 else Dcg(log2, gains) / ideal,
                first))
  }

  /** The first `count` results are distinct gold pages. */
  predicate PerfectStart(pages: seq<int>, gold: set<int>, count: nat) {
    count <= |pages|
    && (forall i | 0 <= i < count :: pages[i] in gold)
    && (forall i, j | 0 <= i < j < count :: pages[i] != pages[j])
  }

  lemma {:induction false} GainAt(pages: seq<int>, gold: set<int>, i: nat)
    requires i < |pages|
    ensures Gains(pages, gold)[i] == 1 <==> pages[i] in gold && pages[i] !in pages[..i]
  {
    var n := |pages| - 1;
    if i < n {
      GainAt(pages[..n], gold, i);
      assert pages[..n][..i] == pages[..i];
    }
  }

  lemma PerfectGains(pages: seq<int>, gold: set<int>, g: seq<nat>, count: nat)
    requires count <= |pages| && g == Gains(pages, gold)
    ensures PerfectStart(pages, gold, count) <==> forall i | 0 <= i < count :: g[i] == 1
  {
    if PerfectStart(pages, gold, count) {
      forall i | 0 <= i < count ensures g[i] == 1 {
        NotSeenBefore(pages, gold, count, i);
        GainAt(pages, gold, i);
      }
    } else if forall i | 0 <= i < count :: g[i] == 1 {
      forall i | 0 <= i < count ensures pages[i] in gold {
        GainAt(pages, gold, i);
      }
      forall i, j | 0 <= i < j < count ensures pages[i] != pages[j] {
        GainAt(pages, gold, j);
        assert pages[..j][i] == pages[i];
      }
    }
  }

  lemma NotSeenBefore(pages: seq<int>, gold: set<int>, count: nat, i: nat)
    requires PerfectStart(pages, gold, count) && i < count <= |pages|
    ensures pages[i] !in pages[..i]
  {
  }

  lemma {:induction false} FirstRelevantFacts(g: seq<nat>)
    ensures match FirstRelevant(g)
            case None => Sum(g) == 0 && forall i | 0 <= i < |g| :: g[i] == 0
            case Some(rank) => 1 <= rank <= |g| && g[rank - 1] > 0 && Sum(g) > 0 && forall i | 0 <= i < rank - 1 :: g[i] == 0
  {
    if g != [] {
      var n := |g| - 1;
      FirstRelevantFacts(g[..n]);
      assert forall i | 0 <= i < n :: g[..n][i] == g[i];
    }
  }

  /** The gains of a perfect start are front-loaded and reach the ideal count, and conversely. */
  lemma IdealReached(g: seq<nat>, m: nat)
    requires (forall i | 0 <= i < |g| :: g[i] <= 1) && Sum(g) <= m
    ensures FrontLoaded(g) && Sum(g) == m <==> m <= |g| && forall i | 0 <= i < m :: g[i] == 1
  {
    SumOfBits(g);
    if m <= |g| {
      if FrontLoaded(g) && Sum(g) == m {
        FrontOnes(g, m);
      }
      if forall i | 0 <= i < m :: g[i] == 1 {
        OnesThenZeros(g, m);
      }
    }
  }

  lemma OnesThenZeros(g: seq<nat>, m: nat)
    requires m <= |g| && Sum(g) <= m && forall i | 0 <= i < m :: g[i] == 1
    ensures FrontLoaded(g) && Sum(g) == m
  {
    var head, tail := g[..m], g[m..];
    SumSplit(g, m);
    SumOfBits(head);
    ZeroTail(tail);
    forall i | m <= i < |g| ensures g[i] == 0 {
      assert g[i] == tail[i - m];
    }
  }

  lemma {:induction false} ZeroTail(g: seq<nat>)
    requires Sum(g) == 0
    ensures forall i | 0 <= i < |g| :: g[i] == 0
  {
    if g != [] {
      ZeroTail(g[..|g| - 1]);
      assert forall i | 0 <= i < |g| - 1 :: g[..|g| - 1][i] == g[i];
    }
  }

  lemma FrontOnes(g: seq<nat>, m: nat)
    requires FrontLoaded(g) && m <= |g| && (forall i | 0 <= i < |g| :: g[i] <= 1) && Sum(g) == m
    ensures forall i | 0 <= i < m :: g[i] == 1
  {
    forall i | 0 <= i < m ensures g[i] == 1 {
      if g[i] == 0 { ZeroEndsTheSum(g, i); }
    }
  }

  lemma ZeroEndsTheSum(g: seq<nat>, i: nat)
    requires FrontLoaded(g) && i < |g| && g[i] == 0 && forall j | 0 <= j < i :: g[j] <= 1
    ensures Sum(g) <= i
  {
    var tail := g[i..];
    assert forall j {:trigger tail[j]} | 0 <= j < |tail| :: tail[j] == g[i + j];
    AllZero(tail);
    SumSplit(g, i);
    SumOfBits(g[..i]);
  }

  lemma {:induction false} AllZero(g: seq<nat>)
    requires forall i | 0 <= i < |g| :: g[i] == 0
    ensures Sum(g) == 0
  {
    if g != [] { AllZero(g[..|g| - 1]); }
  }

  lemma {:induction false} SumSplit(g: seq<nat>, m: nat)
    requires m <= |g|
    ensures Sum(g) == Sum(g[..m]) + Sum(g[m..])
  {
    if m < |g| {
      var n := |g| - 1;
      SumSplit(g[..n], m);
      assert g[..n][..m] == g[..m];
      assert g[m..][..n - m] == g[..n][m..];
    } else {
      assert g[..m] == g;
    }
  }

  /** Normalized gain lies between zero and one, and is one exactly for a perfect start. */
  lemma NdcgRange(log2: nat -> real, retrieved: seq<int>, gold: set<int>, cutoff: nat)
    requires LogLike(log2) && cutoff > 0 && gold != {}
    ensures var scores := EvaluateRanking(log2, retrieved, gold, cutoff).value;
            && 0.0 <= scores.ndcg <= 1.0
            && (scores.ndcg == 1.0 <==> PerfectStart(Take(retrieved, cutoff), gold, Min(|gold|, cutoff)))
  {
    var pages := Take(retrieved, cutoff);
    var g, m := Gains(pages, gold), Min(|gold|, cutoff);
    GainsCountGold(pages, gold);
    Rearrangement(log2, g);
    IdealGrows(log2, Sum(g), m);
    IdealGrows(log2, 0, m);
    IdealReached(g, m);
    if m <= |pages| { PerfectGains(pages, gold, g, m); }
    Normalized(Dcg(log2, g), Ideal(log2, m));
  }

  lemma Normalized(gain: real, ideal: real)
    requires 0.0 <= gain <= ideal && ideal > 0.0
    ensures 0.0 <= gain / ideal <= 1.0
    ensures gain / ideal == 1.0 <==> gain == ideal
    ensures gain / ideal > 0.0 <==> gain > 0.0
  {
    var q := gain / ideal;
    assert q * ideal == gain;
  }

  lemma {:induction false} GainIsPositive(log2: nat -> real, g: seq<nat>)
    requires LogLike(log2)
    ensures Dcg(log2, g) >= 0.0
    ensures Dcg(log2, g) > 0.0 <==> Sum(g) > 0
  {
    if g != [] {
      GainIsPositive(log2, g[..|g| - 1]);
      DiscountFalls(log2, |g|, |g|);
      var d := Discount(log2, |g|);
      assert g[|g| - 1] > 0 ==> Product(g[|g| - 1], d) > 0.0;
      assert g[|g| - 1] == 0 ==> Product(g[|g| - 1], d) == 0.0;
    }
  }

  lemma PositiveRatio(a: nat, b: nat)
    requires 0 < b && a <= b
    ensures 0.0 <= a as real / b as real <= 1.0
    ensures a as real / b as real > 0.0 <==> a > 0
  {
    Normalized(a as real, b as real);
  }

  /**
   Recall, reciprocal rank and normalized gain are positive together, exactly when a gold
   page was retrieved; recall and reciprocal rank lie between zero and one.
   */
  lemma PositiveTogether(log2: nat -> real, retrieved: seq<int>, gold: set<int>, cutoff: nat)
    requires LogLike(log2) && cutoff > 0 && gold != {}
    ensures var scores := EvaluateRanking(log2, retrieved, gold, cutoff).value;
            var found := RetrievedGold(Take(retrieved, cutoff), gold) != {};
            && (scores.recall > 0.0 <==> found) && (scores.mrr > 0.0 <==> found) && (scores.ndcg > 0.0 <==> found)
            && 0.0 <= scores.recall <= 1.0 && 0.0 <= scores.mrr <= 1.0
            && (scores.firstRank.Some? <==> found)
  {
    var pages := Take(retrieved, cutoff);
    var g, m := Gains(pages, gold), Min(|gold|, cutoff);
    GainsCountGold(pages, gold);
    FirstRelevantFacts(g);
    GainIsPositive(log2, g);
    Rearrangement(log2, g);
    IdealGrows(log2, Sum(g), m);
    IdealGrows(log2, 0, m);
    Normalized(Dcg(log2, g), Ideal(log2, m));
    PositiveRatio(|RetrievedGold(pages, gold)|, |gold|);
    if FirstRelevant(g).Some? {
      PositiveRatio(1, FirstRelevant(g).value);
    }
  }

  // ------------------------------------------------------------- what is evaluated

  lemma GainsAppend(pages: seq<int>, page: int, gold: set<int>)
    ensures Gains(pages + [page], gold) == Gains(pages, gold) + [if page in gold && page !in pages then 1 else 0]
  {
    assert (pages + [page])[..|pages|] == pages;
  }

  lemma LastOne(log2: nat -> real, g: seq<nat>, front: seq<nat>)
    requires g == front + [1]
    ensures Dcg(log2, g) == Dcg(log2, front) + Discount(log2, |g|)
  {
    assert g[..|front|] == front;
  }

  lemma DcgAppend(log2: nat -> real, g: seq<nat>, gain: nat)
    requires gain <= 1
    ensures Dcg(log2, g + [gain]) == Dcg(log2, g) + if gain == 1 then Discount(log2, |g| + 1) else 0.0
  {
    if gain == 1 {
      LastOne(log2, g + [gain], g);
    } else {
      LastZero(log2, g + [gain], g);
    }
  }

  /** A gain is added exactly for the first occurrence of a gold page, at one over the logarithm of its place plus one. */
  lemma DcgStep(log2: nat -> real, pages: seq<int>, page: int, gold: set<int>)
    requires LogLike(log2)
    ensures Dcg(log2, Gains([], gold)) == 0.0
    ensures Dcg(log2, Gains(pages + [page], gold)) ==
            Dcg(log2, Gains(pages, gold)) + if page in gold && page !in pages then 1.0 / log2(|pages| + 2) else 0.0
  {
    GainsAppend(pages, page, gold);
    DcgAppend(log2, Gains(pages, gold), if page in gold && page !in pages then 1 else 0);
  }

  /** The ideal places its gold pages first. */
  lemma IdealStep(log2: nat -> real, count: nat)
    requires LogLike(log2)
    ensures Ideal(log2, 0) == 0.0 && Ideal(log2, count + 1) == Ideal(log2, count) + 1.0 / log2(count + 2)
  {
  }

  /** A gold page is found among the first `k` results. */
  predicate FoundWithin(retrieved: seq<int>, gold: set<int>, k: nat) {
    exists i | 0 <= i < k && i < |retrieved| :: retrieved[i] in gold
  }

  lemma HitExactly(retrieved: seq<int>, gold: set<int>, k: nat)
    ensures Hit(retrieved, gold, k) == if FoundWithin(retrieved, gold, k) then 1.0 else 0.0
  {
    var first := Take(retrieved, k);
    if i :| 0 <= i < k && i < |retrieved| && retrieved[i] in gold {
      assert first[i] == retrieved[i] && first[i] in RetrievedGold(first, gold);
    }
    if x :| x in RetrievedGold(first, gold) {
      var i :| 0 <= i < |first| && first[i] == x;
      assert retrieved[i] == x;
    }
  }

  /** The first relevant rank is that of the first gold page. */
  lemma FirstRankExactly(pages: seq<int>, gold: set<int>)
    ensures match FirstRelevant(Gains(pages, gold))
            case None => forall i | 0 <= i < |pages| :: pages[i] !in gold
            case Some(rank) => 1 <= rank <= |pages| && pages[rank - 1] in gold && forall i | 0 <= i < rank - 1 :: pages[i] !in gold
  {
    var g := Gains(pages, gold);
    FirstRelevantFacts(g);
    GainsCountGold(pages, gold);
    var first := if FirstRelevant(g).Some? then FirstRelevant(g).value - 1 else |pages|;
    forall i | 0 <= i < first ensures pages[i] !in gold {
      NoEarlierGold(pages, gold, first, i);
    }
    if first < |pages| { GainAt(pages, gold, first); }
  }

  lemma {:induction false} NoEarlierGold(pages: seq<int>, gold: set<int>, first: nat, i: nat)
    requires i < first <= |pages| && |Gains(pages, gold)| == |pages| && forall k | 0 <= k < first :: Gains(pages, gold)[k] == 0
    ensures pages[i] !in gold
    decreases i
  {
    GainAt(pages, gold, i);
    if pages[i] in gold {
      var j :| 0 <= j < i && pages[..i][j] == pages[i];
      NoEarlierGold(pages, gold, first, j);
    }
  }

  /** The results within the cutoff. */
  function Within(retrieved: seq<int>, cutoff: int): seq<int>
    requires cutoff > 0
  {
    if |retrieved| <= cutoff then retrieved else retrieved[..cutoff]
  }

  lemma EvaluationFails(log2: nat -> real, retrieved: seq<int>, gold: set<int>, cutoff: int)
    ensures EvaluateRanking(log2, retrieved, gold, cutoff).Ok? <==> cutoff > 0 && gold != {}
  {
  }

  /** Recall is the share of gold pages found within the cutoff; hits look at the first one, three and five results. */
  lemma RecallAndHits(log2: nat -> real, retrieved: seq<int>, gold: set<int>, cutoff: nat)
    requires cutoff > 0 && gold != {}
    ensures var scores := EvaluateRanking(log2, retrieved, gold, cutoff).value;
            && scores.recall == |set x | x in gold && x in Within(retrieved, cutoff)| as real / |gold| as real
            && scores.hit1 == (if FoundWithin(retrieved, gold, 1) then 1.0 else 0.0)
            && scores.hit3 == (if FoundWithin(retrieved, gold, 3) then 1.0 else 0.0)
            && scores.hit5 == (if FoundWithin(retrieved, gold, 5) then 1.0 else 0.0)
  {
    HitExactly(retrieved, gold, 1);
    HitExactly(retrieved, gold, 3);
    HitExactly(retrieved, gold, 5);
  }

  /** The reciprocal rank is one over the rank of the first gold page, and zero without one. */
  lemma ReciprocalRankExactly(log2: nat -> real, retrieved: seq<int>, gold: set<int>, cutoff: nat)
    requires cutoff > 0 && gold != {}
    ensures var scores := EvaluateRanking(log2, retrieved, gold, cutoff).value;
            var pages := Within(retrieved, cutoff);
            match scores.firstRank
            case None => scores.mrr == 0.0 && forall i | 0 <= i < |pages| :: pages[i] !in gold
            case Some(rank) =>
              && 1 <= rank <= |pages| && scores.mrr == 1.0 / rank as real
              && pages[rank - 1] in gold && forall i | 0 <= i < rank - 1 :: pages[i] !in gold
  {
    FirstRankExactly(Within(retrieved, cutoff), gold);
  }

  /** The normalized gain is the gain over the ideal of as many gold pages as fit the cutoff. */
  lemma NdcgExactly(log2: nat -> real, retrieved: seq<int>, gold: set<int>, cutoff: nat)
    requires LogLike(log2) && cutoff > 0 && gold != {}
    ensures var ideal := Ideal(log2, if |gold| <= cutoff then |gold| else cutoff);
            ideal > 0.0
            && EvaluateRanking(log2, retrieved, gold, cutoff).value.ndcg == Dcg(log2, Gains(Within(retrieved, cutoff), gold)) / ideal
  {
    IdealGrows(log2, 0, Min(|gold|, cutoff));
  }

  /** A reciprocal rank of one means a hit at the first place, and the other way round. */
  lemma FirstHit(log2: nat -> real, retrieved: seq<int>, gold: set<int>, cutoff: nat)
    requires cutoff > 0 && gold != {}
    ensures var scores := EvaluateRanking(log2, retrieved, gold, cutoff).value;
            && (scores.mrr == 1.0 <==> scores.hit1 == 1.0)
            && scores.hit1 <= scores.hit3 <= scores.hit5
  {
    FirstPlace(Take(retrieved, cutoff), gold, Gains(Take(retrieved, cutoff), gold));
    HitAtFirst(Take(retrieved, cutoff), gold);
    assert Take(retrieved, 1) == Take(Take(retrieved, cutoff), 1);
    var first := FirstRelevant(Gains(Take(retrieved, cutoff), gold));
    if first.Some? { InverseIsOne(first.value); }
    HitsGrow(retrieved, gold, 1, 3);
    HitsGrow(retrieved, gold, 3, 5);
  }

  lemma InverseIsOne(rank: nat)
    requires rank > 0
    ensures 1.0 / rank as real == 1.0 <==> rank == 1
  {
    var q := 1.0 / rank as real;
    assert q * rank as real == 1.0;
  }

  lemma HitAtFirst(pages: seq<int>, gold: set<int>)
    ensures RetrievedGold(Take(pages, 1), gold) != {} <==> pages != [] && pages[0] in gold
  {
    if pages != [] {
      assert Take(pages, 1) == [pages[0]];
      if pages[0] in gold { assert pages[0] in RetrievedGold(Take(pages, 1), gold); }
    }
  }

  lemma FirstPlace(pages: seq<int>, gold: set<int>, g: seq<nat>)
    requires g == Gains(pages, gold)
    ensures FirstRelevant(g).Some? ==> FirstRelevant(g).value > 0
    ensures FirstRelevant(g) == Some(1) <==> pages != [] && pages[0] in gold
  {
    FirstRelevantFacts(g);
    GainsCountGold(pages, gold);
    if pages != [] {
      GainAt(pages, gold, 0);
    }
  }

  lemma HitsGrow(retrieved: seq<int>, gold: set<int>, j: nat, k: nat)
    requires j <= k
    ensures Hit(retrieved, gold, j) <= Hit(retrieved, gold, k)
  {
    if x :| x in RetrievedGold(Take(retrieved, j), gold) {
      assert x in Take(retrieved, k);
      assert x in RetrievedGold(Take(retrieved, k), gold);
    }
  }
}
