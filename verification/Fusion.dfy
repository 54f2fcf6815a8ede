/**
 Reciprocal rank fusion: each document scores the sum of 1/(60 + rank) over the rankings
 that contain it, counting its first occurrence in each.

 A document stands for its key; equal keys mean equal documents.
 */
module Fusion {
  import opened Basics
  import opened Ranking

  type Key = nat

  /** The rank, from 1, of the first occurrence; 0 if there is none. */
  function FirstRank(ranking: seq<Key>, x: Key): (r: nat)
    ensures r <= |ranking|
    ensures r == 0 <==> x !in ranking
    ensures r > 0 ==> ranking[r - 1] == x && x !in ranking[..r - 1]
  {
    if ranking == [] then 0
    else
      var n := |ranking| - 1;
      var r := FirstRank(ranking[..n], x);
      assert ranking == ranking[..n] + [ranking[n]];
      assert r > 0 ==> ranking[..n][..r - 1] == ranking[..r - 1];
      if r > 0 then r else if ranking[n] == x then |ranking| else 0
  }

  function Reciprocal(rank: nat): real {
    if rank == 0 then 0.0 else 1.0 / (60 + rank) as real
  }

  function Score(rankings: seq<seq<Key>>, x: Key): real {
    if rankings == [] then 0.0
    else Score(rankings[..|rankings| - 1], x) + Reciprocal(FirstRank(rankings[|rankings| - 1], x))
  }

  /** The keys of one ranking after those already listed, in order of first appearance. */
  function Listed(listed: seq<Key>, ranking: seq<Key>): seq<Key> {
    if ranking == [] then listed
    else
      var before := Listed(listed, ranking[..|ranking| - 1]);
      var x := ranking[|ranking| - 1];
      if x in before then before else before + [x]
  }

  function FirstSeen(rankings: seq<seq<Key>>): seq<Key> {
    if rankings == [] then [] else Listed(FirstSeen(rankings[..|rankings| - 1]), rankings[|rankings| - 1])
  }

  predicate Found(rankings: seq<seq<Key>>, x: Key) {
    exists j | 0 <= j < |rankings| :: x in rankings[j]
  }

  lemma {:induction false} ListedFacts(listed: seq<Key>, ranking: seq<Key>)
    requires Distinct(listed)
    ensures var r := Listed(listed, ranking);
            && (forall x :: x in r <==> x in listed || x in ranking)
            && Distinct(r)
            && listed <= r
  {
    if ranking != [] {
      var n := |ranking| - 1;
      ListedFacts(listed, ranking[..n]);
      assert ranking == ranking[..n] + [ranking[n]];
    }
  }

  /** Each found document is listed once. */
  lemma {:induction false} FirstSeenFacts(rankings: seq<seq<Key>>)
    ensures Distinct(FirstSeen(rankings))
    ensures forall x :: x in FirstSeen(rankings) <==> Found(rankings, x)
  {
    if rankings != [] {
      var n := |rankings| - 1;
      FirstSeenFacts(rankings[..n]);
      ListedFacts(FirstSeen(rankings[..n]), rankings[n]);
      forall x ensures x in FirstSeen(rankings) <==> Found(rankings, x) {
        assert Found(rankings[..n], x) ==> Found(rankings, x);
        if Found(rankings, x) && x !in rankings[n] {
          var j :| 0 <= j < |rankings| && x in rankings[j];
          assert rankings[..n][j] == rankings[j];
        }
      }
    }
  }

  function Positions(n: nat): (r: seq<nat>)
    ensures |r| == n && forall i | 0 <= i < n :: r[i] == i
  {
    seq(n, i requires 0 <= i < n => i)
  }

  function ScoresOf(keys: seq<Key>, scores: map<Key, real>): (r: map<nat, real>)
    requires forall x | x in keys :: x in scores
    ensures Scored(r, Positions(|keys|))
  {
    map i: nat | i < |keys| :: scores[keys[i]]
  }

  /** The fused order: listed keys by descending score, ties by first appearance. */
  function Ordered(keys: seq<Key>, scores: map<Key, real>): (r: seq<Key>)
    requires forall x | x in keys :: x in scores
  {
    var order := Order(keys, scores);
    seq(|order|, i requires 0 <= i < |order| => At(keys, scores, order, i))
  }

  function At(keys: seq<Key>, scores: map<Key, real>, order: seq<nat>, i: nat): Key
    requires forall x | x in keys :: x in scores
    requires i < |order| && Scored(ScoresOf(keys, scores), order)
  {
    assert order[i] in order;
    keys[order[i]]
  }

  function ScoreMap(rankings: seq<seq<Key>>): map<Key, real> {
    map x | x in FirstSeen(rankings) :: Score(rankings, x)
  }

  /** The whole fused ranking, before it is cut to `k`. */
  function Fused(rankings: seq<seq<Key>>): seq<Key> {
    Ordered(FirstSeen(rankings), ScoreMap(rankings))
  }

  // -------------------------------------------------------------------- the loops

  /** What has been accumulated after some rankings. */
  ghost predicate Accumulated(rankings: seq<seq<Key>>, keys: seq<Key>, scores: map<Key, real>) {
    && keys == FirstSeen(rankings)
    && (forall x {:trigger x in scores} :: x in scores <==> x in keys)
    && (forall x {:trigger x in scores} | x in scores :: scores[x] == Score(rankings, x))
  }

  /** What has been accumulated after the entries `prefix` of one more ranking. */
  ghost predicate PartlyAdded(
    prefix: seq<Key>, keys0: seq<Key>, scores0: map<Key, real>, keys: seq<Key>, scores: map<Key, real>)
  {
    && keys == Listed(keys0, prefix)
    && (forall x {:trigger x in scores} :: x in scores <==> x in keys)
    && (forall x {:trigger x in scores} | x in scores ::
          scores[x] == (if x in scores0 then scores0[x] else 0.0) + Reciprocal(FirstRank(prefix, x)))
  }

  method AddRanking(ranking: seq<Key>, keys0: seq<Key>, scores0: map<Key, real>) returns (keys: seq<Key>, scores: map<Key, real>)
    requires Distinct(keys0) && PartlyAdded([], keys0, scores0, keys0, scores0)
    ensures PartlyAdded(ranking, keys0, scores0, keys, scores)
  {
    keys, scores := keys0, scores0;
    var seen: set<Key> := {};
    assert ranking[..0] == [];
    for i := 0 to |ranking|
      invariant forall x {:trigger x in seen} :: x in seen <==> x in ranking[..i]
      invariant PartlyAdded(ranking[..i], keys0, scores0, keys, scores)
    {
      var key := ranking[i];
      assert ranking[..i + 1] == ranking[..i] + [key];
      if key !in seen {
        keys, scores := AddEntry(keys, scores, key, i + 1, ranking[..i], keys0, scores0);
        seen := seen + {key};
      } else {
        EntryRepeated(ranking[..i], key, keys0, scores0, keys, scores);
      }
    }
    assert ranking[..|ranking|] == ranking;
  }

  /** A document's first entry in a ranking adds to its score, and lists it if it is new. */
  method AddEntry(
      keys1: seq<Key>, scores1: map<Key, real>, key: Key, rank: nat,
      ghost prefix: seq<Key>, ghost keys0: seq<Key>, ghost scores0: map<Key, real>)
    returns (keys: seq<Key>, scores: map<Key, real>)
    requires rank == |prefix| + 1 && key !in prefix && Distinct(keys0)
    requires PartlyAdded([], keys0, scores0, keys0, scores0) && PartlyAdded(prefix, keys0, scores0, keys1, scores1)
    ensures PartlyAdded(prefix + [key], keys0, scores0, keys, scores)
  {
    keys := keys1;
    if key !in keys {
      keys := keys + [key];
    }
    scores := scores1[key := (if key in scores1 then scores1[key] else 0.0) + 1.0 / (60 + rank) as real];
    EntryAdded(prefix, key, keys0, scores0, keys1, scores1, keys, scores);
  }

  lemma RankGrows(prefix: seq<Key>, key: Key, x: Key)
    ensures FirstRank(prefix + [key], x) == if x == key && x !in prefix then |prefix| + 1 else FirstRank(prefix, x)
  {
    assert (prefix + [key])[..|prefix|] == prefix;
  }

  lemma EntryRepeated(prefix: seq<Key>, key: Key, keys0: seq<Key>, scores0: map<Key, real>, keys: seq<Key>, scores: map<Key, real>)
    requires PartlyAdded(prefix, keys0, scores0, keys, scores) && key in prefix
    requires Distinct(keys0)
    ensures PartlyAdded(prefix + [key], keys0, scores0, keys, scores)
  {
    ListedFacts(keys0, prefix);
    assert (prefix + [key])[..|prefix|] == prefix;
    forall x {:trigger x in scores} | x in scores
      ensures scores[x] == (if x in scores0 then scores0[x] else 0.0) + Reciprocal(FirstRank(prefix + [key], x))
    {
      RankGrows(prefix, key, x);
    }
  }

  lemma EntryListed(prefix: seq<Key>, key: Key, keys0: seq<Key>, keys: seq<Key>, keys': seq<Key>)
    requires keys == Listed(keys0, prefix) && keys' == if key in keys then keys else keys + [key]
    ensures keys' == Listed(keys0, prefix + [key])
  {
    assert (prefix + [key])[..|prefix|] == prefix;
  }

  /** The score of one document after one more entry. */
  lemma EntryScored(prefix: seq<Key>, key: Key, scores0: map<Key, real>, scores: map<Key, real>, before: real, x: Key)
    requires key !in prefix && before == if key in scores then scores[key] else 0.0
    requires key !in scores ==> key !in scores0
    requires x in scores ==> scores[x] == (if x in scores0 then scores0[x] else 0.0) + Reciprocal(FirstRank(prefix, x))
    requires x == key || x in scores
    ensures (if x == key then before + Reciprocal(|prefix| + 1) else scores[x])
            == (if x in scores0 then scores0[x] else 0.0) + Reciprocal(FirstRank(prefix + [key], x))
  {
    RankGrows(prefix, key, x);
    assert FirstRank(prefix, key) == 0;
  }

  lemma EntryAdded(
    prefix: seq<Key>, key: Key, keys0: seq<Key>, scores0: map<Key, real>, keys: seq<Key>, scores: map<Key, real>,
    keys': seq<Key>, scores': map<Key, real>)
    requires PartlyAdded(prefix, keys0, scores0, keys, scores) && key !in prefix && Distinct(keys0)
    requires forall x | x in scores0 :: x in keys0
    requires keys' == if key in keys then keys else keys + [key]
    requires scores' == scores[key := (if key in scores then scores[key] else 0.0) + Reciprocal(|prefix| + 1)]
    ensures PartlyAdded(prefix + [key], keys0, scores0, keys', scores')
  {
    EntryListed(prefix, key, keys0, keys, keys');
    KeysListed(prefix, keys0, keys);
    var before := if key in scores then scores[key] else 0.0;
    forall x {:trigger x in scores'} | x in scores'
      ensures scores'[x] == (if x in scores0 then scores0[x] else 0.0) + Reciprocal(FirstRank(prefix + [key], x))
    {
      EntryScored(prefix, key, scores0, scores, before, x);
    }
  }

  lemma KeysListed(prefix: seq<Key>, keys0: seq<Key>, keys: seq<Key>)
    requires Distinct(keys0) && keys == Listed(keys0, prefix)
    ensures forall x | x in keys0 :: x in keys
  {
    ListedFacts(keys0, prefix);
  }

  lemma Closing(
    rankings: seq<seq<Key>>, ranking: seq<Key>, keys0: seq<Key>, scores0: map<Key, real>, keys: seq<Key>, scores: map<Key, real>)
    requires Accumulated(rankings, keys0, scores0) && PartlyAdded(ranking, keys0, scores0, keys, scores)
    ensures Accumulated(rankings + [ranking], keys, scores)
  {
    assert (rankings + [ranking])[..|rankings|] == rankings;
    FirstSeenFacts(rankings);
    forall x {:trigger x in scores} | x in scores ensures scores[x] == Score(rankings + [ranking], x) {
      if x !in scores0 {
        NotFoundNoScore(rankings, x);
      }
    }
  }

  lemma {:induction false} NotFoundNoScore(rankings: seq<seq<Key>>, x: Key)
    requires !Found(rankings, x)
    ensures Score(rankings, x) == 0.0
  {
    if rankings != [] {
      var n := |rankings| - 1;
      assert x !in rankings[n];
      assert forall j | 0 <= j < n :: rankings[..n][j] == rankings[j];
      NotFoundNoScore(rankings[..n], x);
    }
  }

  /** Fusion scores every found document by its first ranks and returns the best `k`, once each. */
  method ReciprocalRankFusion(rankings: seq<seq<Key>>, k: nat) returns (r: seq<Key>)
    ensures r == Take(Fused(rankings), k)
  {
    var keys: seq<Key> := [];
    var scores: map<Key, real> := map[];
    for i := 0 to |rankings|
      invariant Accumulated(rankings[..i], keys, scores)
    {
      FirstSeenFacts(rankings[..i]);
      ghost var keys0, scores0 := keys, scores;
      keys, scores := AddRanking(rankings[i], keys, scores);
      Closing(rankings[..i], rankings[i], keys0, scores0, keys, scores);
      assert rankings[..i + 1] == rankings[..i] + [rankings[i]];
    }
    assert rankings[..|rankings|] == rankings;
    assert scores == ScoreMap(rankings);
    r := Take(Ordered(keys, scores), k);
  }

  // ------------------------------------------------------------------- properties

  /** The positions behind an ordering. */
  function Order(keys: seq<Key>, scores: map<Key, real>): (order: seq<nat>)
    requires forall x | x in keys :: x in scores
    ensures Scored(ScoresOf(keys, scores), order)
  {
    Sorted(ScoresOf(keys, scores), Positions(|keys|))
  }

  /** Ordering permutes the positions of the keys and ranks them. */
  lemma OrderRanks(keys: seq<Key>, scores: map<Key, real>)
    requires forall x | x in keys :: x in scores
    ensures var order := Order(keys, scores);
            && Distinct(order) && Ranked(ScoresOf(keys, scores), order) && |order| == |keys|
            && (forall p {:trigger p in order} :: p in order <==> 0 <= p < |keys|)
  {
    var table, order := ScoresOf(keys, scores), Order(keys, scores);
    SortedRanked(table, Positions(|keys|));
    assert |order| == |multiset(order)| == |multiset(Positions(|keys|))| == |keys|;
    forall p {:trigger p in order} ensures p in order <==> 0 <= p < |keys| {
      assert p in order <==> p in multiset(order);
      assert p in multiset(order) <==> p in Positions(|keys|);
      if 0 <= p < |keys| { assert Positions(|keys|)[p] == p; }
    }
  }

  lemma OrderedAt(keys: seq<Key>, scores: map<Key, real>, a: nat)
    requires forall x | x in keys :: x in scores
    requires a < |keys|
    ensures var order := Order(keys, scores);
            |order| == |Ordered(keys, scores)| == |keys| && order[a] < |keys| && Ordered(keys, scores)[a] == keys[order[a]]
  {
    OrderRanks(keys, scores);
    assert Order(keys, scores)[a] in Order(keys, scores);
  }

  lemma OrderedDistinct(keys: seq<Key>, scores: map<Key, real>)
    requires forall x | x in keys :: x in scores
    requires Distinct(keys)
    ensures Distinct(Ordered(keys, scores))
  {
    OrderRanks(keys, scores);
    var r := Ordered(keys, scores);
    forall a, b | 0 <= a < b < |r| ensures r[a] != r[b] {
      OrderedAt(keys, scores, a);
      OrderedAt(keys, scores, b);
    }
  }

  lemma OrderedMember(keys: seq<Key>, scores: map<Key, real>, x: Key)
    requires forall x | x in keys :: x in scores
    ensures x in Ordered(keys, scores) <==> x in keys
  {
    OrderRanks(keys, scores);
    var order, r := Order(keys, scores), Ordered(keys, scores);
    if x in keys {
      var p :| 0 <= p < |keys| && keys[p] == x;
      assert p in order;
      var a :| 0 <= a < |order| && order[a] == p;
      OrderedAt(keys, scores, a);
      assert r[a] == x;
    }
    if x in r {
      var a :| 0 <= a < |r| && r[a] == x;
      OrderedAt(keys, scores, a);
    }
  }

  lemma OrderedByScore(keys: seq<Key>, scores: map<Key, real>, a: nat, b: nat)
    requires forall x | x in keys :: x in scores
    requires a < |keys| && b < |keys|
    ensures |Ordered(keys, scores)| == |keys|
    ensures var r := Ordered(keys, scores);
            r[a] in scores && r[b] in scores && (scores[r[a]] > scores[r[b]] ==> a < b)
  {
    OrderRanks(keys, scores);
    OrderedAt(keys, scores, a);
    OrderedAt(keys, scores, b);
    var order, table := Order(keys, scores), ScoresOf(keys, scores);
    assert keys[order[a]] in keys && keys[order[b]] in keys;
    assert table[order[a]] == scores[keys[order[a]]] && table[order[b]] == scores[keys[order[b]]];
  }

  /** Fusion repeats no document. */
  lemma FusedDistinct(rankings: seq<seq<Key>>)
    ensures Distinct(Fused(rankings)) && |Fused(rankings)| == |FirstSeen(rankings)|
  {
    var keys, scores := FirstSeen(rankings), ScoreMap(rankings);
    FirstSeenFacts(rankings);
    OrderRanks(keys, scores);
    OrderedDistinct(keys, scores);
  }

  /** Fusion returns exactly the documents found. */
  lemma FusedMember(rankings: seq<seq<Key>>, x: Key)
    ensures x in Fused(rankings) <==> Found(rankings, x)
  {
    FirstSeenFacts(rankings);
    OrderedMember(FirstSeen(rankings), ScoreMap(rankings), x);
  }

  /** A better score always means an earlier place. */
  lemma HigherScoreFirst(rankings: seq<seq<Key>>, a: nat, b: nat)
    ensures (a < |Fused(rankings)| && b < |Fused(rankings)|
             && Score(rankings, Fused(rankings)[a]) > Score(rankings, Fused(rankings)[b])) ==> a < b
  {
    var keys, scores := FirstSeen(rankings), ScoreMap(rankings);
    if a < |Fused(rankings)| && b < |Fused(rankings)| {
      FusedDistinct(rankings);
      OrderedByScore(keys, scores, a, b);
    }
  }

  /** In every ranking, `x` comes before `y`, or `y` is not in it. */
  predicate Beats(rankings: seq<seq<Key>>, x: Key, y: Key) {
    forall j | 0 <= j < |rankings| :: y in rankings[j] ==> 0 < FirstRank(rankings[j], x) < FirstRank(rankings[j], y)
  }

  lemma ReciprocalOrder(a: nat, b: nat)
    requires 0 < a <= b
    ensures Reciprocal(a) >= Reciprocal(b) > 0.0
    ensures a < b ==> Reciprocal(a) > Reciprocal(b)
  {
    var x, y := (60 + a) as real, (60 + b) as real;
    var p, q := 1.0 / x, 1.0 / y;
    assert p * x == 1.0 && q * y == 1.0;
    assert p > 0.0 && q > 0.0;
    assert (p - q) * x == q * (y - x);
  }

  /** One ranking's share of the comparison. */
  lemma BetterRank(ranking: seq<Key>, x: Key, y: Key)
    requires y in ranking ==> 0 < FirstRank(ranking, x) < FirstRank(ranking, y)
    ensures Reciprocal(FirstRank(ranking, x)) >= Reciprocal(FirstRank(ranking, y))
    ensures y in ranking ==> Reciprocal(FirstRank(ranking, x)) > Reciprocal(FirstRank(ranking, y))
  {
    if y in ranking {
      ReciprocalOrder(FirstRank(ranking, x), FirstRank(ranking, y));
    }
  }

  lemma FoundSplit(rankings: seq<seq<Key>>, last: seq<Key>, y: Key)
    ensures Found(rankings + [last], y) <==> Found(rankings, y) || y in last
  {
    var all := rankings + [last];
    if y in last { assert y in all[|rankings|]; }
    if Found(rankings, y) {
      var j :| 0 <= j < |rankings| && y in rankings[j];
      assert y in all[j];
    }
  }

  lemma {:induction false} BetterScore(rankings: seq<seq<Key>>, x: Key, y: Key)
    requires Beats(rankings, x, y)
    ensures Score(rankings, x) >= Score(rankings, y)
    ensures Found(rankings, y) ==> Score(rankings, x) > Score(rankings, y)
  {
    if rankings != [] {
      var n := |rankings| - 1;
      var before, last := rankings[..n], rankings[n];
      assert Beats(before, x, y) by {
        assert forall j | 0 <= j < n :: before[j] == rankings[j];
      }
      BetterScore(before, x, y);
      BetterRank(last, x, y);
      assert rankings == before + [last];
      FoundSplit(before, last, y);
    }
  }

  /** Fusion never places a document after one that it beats in every ranking. */
  lemma FusionRespectsDominance(rankings: seq<seq<Key>>, a: nat, b: nat)
    ensures a < |Fused(rankings)| && b < |Fused(rankings)| && Beats(rankings, Fused(rankings)[a], Fused(rankings)[b]) ==> a < b
  {
    var r := Fused(rankings);
    if a < |r| && b < |r| && Beats(rankings, r[a], r[b]) {
      FusedMember(rankings, r[b]);
      assert r[b] in r;
      BetterScore(rankings, r[a], r[b]);
      HigherScoreFirst(rankings, a, b);
    }
  }

  lemma PairScore(x: Key, pair: seq<seq<Key>>)
    requires |pair| == 2
    ensures Score(pair, x) == Reciprocal(FirstRank(pair[0], x)) + Reciprocal(FirstRank(pair[1], x))
  {
    var one := pair[..1];
    assert one[..0] == [] && one[0] == pair[0];
    assert Score(one, x) == Score(one[..0], x) + Reciprocal(FirstRank(one[0], x));
  }

  /** Two rankings so short that being found by both always outweighs one first place. */
  predicate ShortPair(n: nat, m: nat) {
    (n - 1) * (m - 1) < 3721
  }

  /** Two places at the ends of both rankings outscore one first place exactly for a short pair. */
  lemma EndsAgainstFirst(n: nat, m: nat)
    requires n > 0 && m > 0
    ensures Reciprocal(n) + Reciprocal(m) > Reciprocal(1) <==> ShortPair(n, m)
  {
    var x, y := (60 + n) as real, (60 + m) as real;
    var p, q := 1.0 / x, 1.0 / y;
    assert p * x == 1.0 && q * y == 1.0;
    assert Reciprocal(1) == 1.0 / 61.0;
    Crossed(p, q, x, y);
    assert x * y == ((60 + n) * (60 + m)) as real;
  }

  lemma Crossed(p: real, q: real, x: real, y: real)
    requires x > 0.0 && y > 0.0 && p * x == 1.0 && q * y == 1.0
    ensures p + q > 1.0 / 61.0 <==> 61.0 * (x + y) > x * y
  {
    var z := x * y;
    assert (p + q) * z == x + y by {
      assert p * z == (p * x) * y && q * z == (q * y) * x;
    }
    Scaled(p + q, 1.0 / 61.0, z);
  }

  lemma Scaled(s: real, c: real, z: real)
    requires z > 0.0
    ensures s > c <==> s * z > c * z
  {
    assert (s - c) * z == s * z - c * z;
  }

  /** Every document found by both rankings comes before every document found by one only. */
  ghost predicate BothFirst(pair: seq<seq<Key>>)
    requires |pair| == 2
  {
    var r := Fused(pair);
    forall a, b {:trigger r[a], r[b]} |
      0 <= a < |r| && 0 <= b < |r| && r[a] in pair[0] && r[a] in pair[1] && (r[b] !in pair[0] || r[b] !in pair[1]) :: a < b
  }

  lemma BothBeforeOne(pair: seq<seq<Key>>)
    requires |pair| == 2 && ShortPair(|pair[0]|, |pair[1]|)
    ensures BothFirst(pair)
  {
    var r := Fused(pair);
    forall a, b {:trigger r[a], r[b]} |
      0 <= a < |r| && 0 <= b < |r| && r[a] in pair[0] && r[a] in pair[1] && (r[b] !in pair[0] || r[b] !in pair[1])
      ensures a < b
    {
      BothOutscores(pair, r[a], r[b]);
      HigherScoreFirst(pair, a, b);
    }
  }

  lemma BothOutscores(pair: seq<seq<Key>>, x: Key, y: Key)
    requires |pair| == 2 && ShortPair(|pair[0]|, |pair[1]|)
    requires x in pair[0] && x in pair[1] && (y !in pair[0] || y !in pair[1])
    ensures Score(pair, x) > Score(pair, y)
  {
    PairScore(x, pair);
    PairScore(y, pair);
    ReciprocalOrder(FirstRank(pair[0], x), |pair[0]|);
    ReciprocalOrder(FirstRank(pair[1], x), |pair[1]|);
    EndsAgainstFirst(|pair[0]|, |pair[1]|);
    if y in pair[0] { ReciprocalOrder(1, FirstRank(pair[0], y)); }
    if y in pair[1] { ReciprocalOrder(1, FirstRank(pair[1], y)); }
  }

  lemma {:induction false} ListedFirst(ranking: seq<Key>)
    requires ranking != []
    ensures Listed([], ranking) != [] && Listed([], ranking)[0] == ranking[0]
  {
    var n := |ranking| - 1;
    if n > 0 {
      ListedFirst(ranking[..n]);
    }
  }

  /** The first document of the first ranking is the first one seen. */
  lemma FirstSeenFirst(pair: seq<seq<Key>>)
    requires |pair| == 2 && pair[0] != []
    ensures FirstSeen(pair) != [] && FirstSeen(pair)[0] == pair[0][0]
  {
    var one := pair[..1];
    assert one[..0] == [] && one[0] == pair[0];
    ListedFirst(pair[0]);
    assert FirstSeen(one) == Listed([], pair[0]);
    FirstSeenFacts(one);
    ListedFacts(FirstSeen(one), pair[1]);
    assert FirstSeen(pair) == Listed(FirstSeen(one), pair[1]);
  }

  /** The first key's position is the lowest one. */
  lemma FirstKeyAt(keys: seq<Key>, scores: map<Key, real>, b: nat)
    requires forall x | x in keys :: x in scores
    requires Distinct(keys) && b < |keys|
    ensures |Ordered(keys, scores)| == |Order(keys, scores)| == |keys|
    ensures Ordered(keys, scores)[b] == keys[0] ==> Order(keys, scores)[b] == 0
  {
    OrderRanks(keys, scores);
    OrderedAt(keys, scores, b);
  }

  /** Of two keys with one score, the one listed first comes first. */
  lemma TiesByPosition(keys: seq<Key>, scores: map<Key, real>, a: nat, b: nat)
    requires forall x | x in keys :: x in scores
    requires a < |keys| && b < |keys| && a != b
    ensures |Order(keys, scores)| == |keys|
    ensures var order := Order(keys, scores);
            && order[a] < |keys| && order[b] < |keys| && keys[order[a]] in scores && keys[order[b]] in scores
            && (order[b] == 0 && scores[keys[order[a]]] == scores[keys[order[b]]] ==> b < a)
  {
    OrderRanks(keys, scores);
    OrderedAt(keys, scores, a);
    OrderedAt(keys, scores, b);
    var order, table := Order(keys, scores), ScoresOf(keys, scores);
    assert keys[order[a]] in keys && keys[order[b]] in keys;
    assert table[order[a]] == scores[keys[order[a]]] && table[order[b]] == scores[keys[order[b]]];
  }

  /** Two rankings that share only `x`, at the end of both, after another first document. */
  predicate SharesOnlyLast(pair: seq<seq<Key>>, x: Key) {
    && |pair| == 2 && pair[0] != [] && pair[1] != []
    && FirstRank(pair[0], x) == |pair[0]| && FirstRank(pair[1], x) == |pair[1]|
    && pair[0][0] !in pair[1]
  }

  lemma FirstOutscoresShared(pair: seq<seq<Key>>, x: Key)
    requires SharesOnlyLast(pair, x) && !ShortPair(|pair[0]|, |pair[1]|)
    ensures Score(pair, pair[0][0]) >= Score(pair, x) && pair[0][0] != x
  {
    var first := pair[0][0];
    PairScore(first, pair);
    PairScore(x, pair);
    assert first in pair[0];
    assert FirstRank(pair[0], first) == 1 && FirstRank(pair[1], first) == 0;
    EndsAgainstFirst(|pair[0]|, |pair[1]|);
  }

  /**
   In a long pair a document at the end of both rankings comes after the first document of
   the first ranking, although only that ranking found it: its score is no better, and a tie
   goes to the document seen first.
   */
  lemma LongPairsFail(pair: seq<seq<Key>>, x: Key) returns (a: nat, b: nat)
    requires SharesOnlyLast(pair, x) && !ShortPair(|pair[0]|, |pair[1]|)
    ensures x in pair[0] && x in pair[1] && pair[0][0] !in pair[1]
    ensures b < a < |Fused(pair)| && Fused(pair)[a] == x && Fused(pair)[b] == pair[0][0]
  {
    var first := pair[0][0];
    FusedMember(pair, x);
    FusedMember(pair, first);
    assert first in pair[0];
    a :| 0 <= a < |Fused(pair)| && Fused(pair)[a] == x;
    b :| 0 <= b < |Fused(pair)| && Fused(pair)[b] == first;
    FirstOutscoresShared(pair, x);
    if Score(pair, first) > Score(pair, x) {
      HigherScoreFirst(pair, b, a);
    } else {
      TieGoesToFirst(pair, x, a, b);
    }
  }

  lemma TieGoesToFirst(pair: seq<seq<Key>>, x: Key, a: nat, b: nat)
    requires |pair| == 2 && pair[0] != [] && Score(pair, pair[0][0]) == Score(pair, x) && pair[0][0] != x
    requires a < |Fused(pair)| && b < |Fused(pair)| && Fused(pair)[a] == x && Fused(pair)[b] == pair[0][0]
    ensures b < a
  {
    var keys, scores := FirstSeen(pair), ScoreMap(pair);
    FusedDistinct(pair);
    FirstSeenFacts(pair);
    FirstSeenFirst(pair);
    FirstKeyAt(keys, scores, b);
    TiesByPosition(keys, scores, a, b);
    OrderedAt(keys, scores, a);
    OrderedAt(keys, scores, b);
  }

  function Numbers(n: nat, from: nat): (r: seq<Key>)
    ensures |r| == n && forall i | 0 <= i < n :: r[i] == from + i
  {
    seq(n, i requires 0 <= i < n => from + i)
  }

  /** Such rankings exist, of any two lengths. */
  function SharedLast(n: nat, m: nat): (pair: seq<seq<Key>>)
    requires n > 1 && m > 0
    ensures |pair| == 2 && |pair[0]| == n && |pair[1]| == m && SharesOnlyLast(pair, n - 1)
  {
    var first, second := Numbers(n, 0), Numbers(m - 1, n) + [n - 1];
    assert first[n - 1] == n - 1 && second[m - 1] == n - 1 && first[0] == 0;
    [first, second]
  }

  /** The lengths of two rankings for which documents found by both always come first. */
  lemma BothFirstExactly(n: nat, m: nat)
    ensures (forall pair: seq<seq<Key>> {:trigger BothFirst(pair)} |
               |pair| == 2 && |pair[0]| == n && |pair[1]| == m :: BothFirst(pair)) <==> ShortPair(n, m)
  {
    if ShortPair(n, m) {
      forall pair: seq<seq<Key>> | |pair| == 2 && |pair[0]| == n && |pair[1]| == m ensures BothFirst(pair) {
        BothBeforeOne(pair);
      }
    } else {
      if n <= 1 || m <= 1 { TinyIsShort(n, m); }
      var pair := SharedLast(n, m);
      var a, b := LongPairsFail(pair, n - 1);
      assert Fused(pair)[a] in pair[0] && Fused(pair)[b] !in pair[1];
      assert !BothFirst(pair);
    }
  }

  lemma TinyIsShort(n: nat, m: nat)
    requires n <= 1 || m <= 1
    ensures ShortPair(n, m)
  {
    if n == 0 {
      assert (n - 1) * (m - 1) == 1 - m;
    } else if m == 0 {
      assert (n - 1) * (m - 1) == 1 - n;
    }
  }

  /** Sixty-one is the longest common limit. */
  lemma SixtyOneAtMost(limit: nat)
    ensures (forall pair: seq<seq<Key>> {:trigger BothFirst(pair)} |
               |pair| == 2 && |pair[0]| <= limit && |pair[1]| <= limit :: BothFirst(pair)) <==> limit <= 61
  {
    if limit <= 61 {
      forall pair: seq<seq<Key>> | |pair| == 2 && |pair[0]| <= limit && |pair[1]| <= limit ensures BothFirst(pair) {
        SmallProduct(|pair[0]|, |pair[1]|);
        BothBeforeOne(pair);
      }
    } else {
      assert !ShortPair(62, 62);
      BothFirstExactly(62, 62);
    }
  }

  lemma SmallProduct(n: nat, m: nat)
    requires n <= 61 && m <= 61
    ensures ShortPair(n, m)
  {
    if n <= 1 || m <= 1 {
      TinyIsShort(n, m);
    } else {
      assert (n - 1) * (m - 1) <= 60 * (m - 1);
    }
  }
}
