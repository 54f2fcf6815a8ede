/** Ranking by descending score with ties by position: `sorted(..., key=(-score, index))`. */
module Ranking {
  import opened Basics

  /** Higher scores first, ties by position. */
  predicate Before(scores: map<nat, real>, i: nat, j: nat)
    requires i in scores && j in scores
  {
    scores[i] > scores[j] || (scores[i] == scores[j] && i < j)
  }

  predicate Scored(scores: map<nat, real>, s: seq<nat>) {
    forall i | i in s :: i in scores
  }

  function Insert(scores: map<nat, real>, s: seq<nat>, i: nat): (r: seq<nat>)
    requires Scored(scores, s) && i in scores
    ensures multiset(r) == multiset(s) + multiset{i}
    ensures Scored(scores, r)
  {
    if s == [] then [i]
    else
      assert s == s[..|s| - 1] + [s[|s| - 1]];
      if Before(scores, s[|s| - 1], i) then s + [i]
      else Insert(scores, s[..|s| - 1], i) + [s[|s| - 1]]
  }

  function Sorted(scores: map<nat, real>, s: seq<nat>): (r: seq<nat>)
    requires Scored(scores, s)
    ensures multiset(r) == multiset(s) && Scored(scores, r)
  {
    if s == [] then []
    else
      assert s == s[..|s| - 1] + [s[|s| - 1]];
      Insert(scores, Sorted(scores, s[..|s| - 1]), s[|s| - 1])
  }

  predicate Ranked(scores: map<nat, real>, s: seq<nat>)
    requires Scored(scores, s)
  {
    forall a, b | 0 <= a < b < |s| :: Before(scores, s[a], s[b])
  }

  lemma BeforeTransitive(scores: map<nat, real>, i: nat, j: nat, k: nat)
    requires i in scores && j in scores && k in scores && Before(scores, i, j) && Before(scores, j, k)
    ensures Before(scores, i, k)
  {
  }

  lemma AppendRanked(scores: map<nat, real>, s: seq<nat>, i: nat)
    requires Scored(scores, s) && i in scores && Ranked(scores, s)
    requires s != [] ==> Before(scores, s[|s| - 1], i)
    ensures Ranked(scores, s + [i])
  {
    forall a | 0 <= a < |s| ensures Before(scores, s[a], i) {
      if a < |s| - 1 { BeforeTransitive(scores, s[a], s[|s| - 1], i); }
    }
  }

  lemma {:induction false} InsertRanked(scores: map<nat, real>, s: seq<nat>, i: nat)
    requires Scored(scores, s) && i in scores && i !in s && Ranked(scores, s)
    ensures Ranked(scores, Insert(scores, s, i))
  {
    if s == [] || Before(scores, s[|s| - 1], i) {
      AppendRanked(scores, s, i);
    } else {
      var n := |s| - 1;
      InsertRanked(scores, s[..n], i);
      var r := Insert(scores, s[..n], i);
      assert r[|r| - 1] in multiset(s[..n]) + multiset{i};
      if r[|r| - 1] != i {
        assert r[|r| - 1] in s[..n];
      }
      AppendRanked(scores, r, s[n]);
    }
  }

  lemma {:induction false} SortedRanked(scores: map<nat, real>, s: seq<nat>)
    requires Scored(scores, s) && Distinct(s)
    ensures Ranked(scores, Sorted(scores, s))
  {
    if s != [] {
      var n := |s| - 1;
      SortedRanked(scores, s[..n]);
      assert s[n] !in multiset(s[..n]);
      InsertRanked(scores, Sorted(scores, s[..n]), s[n]);
    }
  }

  /** There is only one ranking of the same documents under the same scores. */
  lemma {:induction false} RankingUnique(scores: map<nat, real>, s: seq<nat>, t: seq<nat>)
    requires Scored(scores, s) && Scored(scores, t) && Ranked(scores, s) && Ranked(scores, t)
    requires multiset(s) == multiset(t)
    ensures s == t
    decreases |s|
  {
    assert |s| == |multiset(s)| == |multiset(t)| == |t|;
    if s != [] {
      FirstIsFirst(scores, s, t);
      assert s == [s[0]] + s[1..] && t == [t[0]] + t[1..];
      assert multiset(s[1..]) == multiset(s) - multiset{s[0]};
      assert multiset(t[1..]) == multiset(t) - multiset{t[0]};
      RankingUnique(scores, s[1..], t[1..]);
    }
  }

  lemma FirstIsFirst(scores: map<nat, real>, s: seq<nat>, t: seq<nat>)
    requires Scored(scores, s) && Scored(scores, t) && Ranked(scores, s) && Ranked(scores, t)
    requires multiset(s) == multiset(t) && s != [] && t != []
    ensures s[0] == t[0]
  {
    assert s[0] in multiset(t) && t[0] in multiset(s);
    var a :| 0 <= a < |t| && t[a] == s[0];
    var b :| 0 <= b < |s| && s[b] == t[0];
  }
}
