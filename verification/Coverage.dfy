/**
 Workspace retrieval after the per-document searches: a round-robin merge, an optional
 global rerank, and a selection that covers the documents of a comparison.

 A hit stands for its key, the document and the chunk.
 */
module Coverage {
  import opened Wrappers
  import opened Basics

  datatype Hit = Hit(document: nat, chunk: nat)

  /** A place in the rankings: the rank first, then the ranking. */
  datatype Cell = Cell(rank: nat, ranking: nat)

  predicate Earlier(a: Cell, b: Cell) {
    a.rank < b.rank || (a.rank == b.rank && a.ranking < b.ranking)
  }

  predicate Holds(rankings: seq<seq<Hit>>, c: Cell, x: Hit) {
    c.ranking < |rankings| && c.rank < |rankings[c.ranking]| && rankings[c.ranking][c.rank] == x
  }

  /** The best place of a hit: no earlier cell holds it. */
  ghost predicate BestPlace(rankings: seq<seq<Hit>>, c: Cell, x: Hit) {
    Holds(rankings, c, x) && forall d {:trigger Holds(rankings, d, x)} | Holds(rankings, d, x) :: d == c || Earlier(c, d)
  }

  predicate Increasing(cells: seq<Cell>) {
    forall a, b {:trigger cells[a], cells[b]} | 0 <= a < b < |cells| :: Earlier(cells[a], cells[b])
  }

  /** `merged` lists the hits by best place, each once; `cells` are those places. */
  ghost predicate MergedUpTo(rankings: seq<seq<Hit>>, merged: seq<Hit>, cells: seq<Cell>, next: Cell) {
    && |cells| == |merged| && Increasing(cells)
    && (forall a {:trigger cells[a]} | 0 <= a < |cells| :: BestPlace(rankings, cells[a], merged[a]) && Earlier(cells[a], next))
    && (forall d, x {:trigger Holds(rankings, d, x)} | Holds(rankings, d, x) && Earlier(d, next) :: x in merged)
  }

  ghost predicate Merged(rankings: seq<seq<Hit>>, merged: seq<Hit>, cells: seq<Cell>) {
    && |cells| == |merged| && Increasing(cells)
    && (forall a {:trigger cells[a]} | 0 <= a < |cells| :: BestPlace(rankings, cells[a], merged[a]))
    && (forall d, x {:trigger Holds(rankings, d, x)} | Holds(rankings, d, x) :: x in merged)
  }

  /** `merged` is the round-robin merge of the rankings. */
  ghost predicate IsMerge(rankings: seq<seq<Hit>>, merged: seq<Hit>) {
    exists cells: seq<Cell> {:trigger Merged(rankings, merged, cells)} :: Merged(rankings, merged, cells)
  }

  method Depth(rankings: seq<seq<Hit>>) returns (depth: nat)
    ensures forall l | 0 <= l < |rankings| :: |rankings[l]| <= depth
  {
    depth := 0;
    for l := 0 to |rankings|
      invariant forall k | 0 <= k < l :: |rankings[k]| <= depth
    {
      if |rankings[l]| > depth {
        depth := |rankings[l]|;
      }
    }
  }

  /** Takes one hit from each ranking in turn, skipping hits already taken. */
  method RoundRobin(rankings: seq<seq<Hit>>) returns (merged: seq<Hit>)
    ensures IsMerge(rankings, merged)
  {
    merged := [];
    ghost var cells: seq<Cell> := [];
    var seen: set<Hit> := {};
    var depth := Depth(rankings);
    for rank := 0 to depth
      invariant MergedUpTo(rankings, merged, cells, Cell(rank, 0))
      invariant forall x {:trigger x in seen} :: x in seen <==> x in merged
    {
      for l := 0 to |rankings|
        invariant MergedUpTo(rankings, merged, cells, Cell(rank, l))
        invariant forall x {:trigger x in seen} :: x in seen <==> x in merged
      {
        if rank < |rankings[l]| {
          var hit := rankings[l][rank];
          if hit !in seen {
            HitAdded(rankings, merged, cells, Cell(rank, l), hit);
            seen := seen + {hit};
            merged := merged + [hit];
            cells := cells + [Cell(rank, l)];
          } else {
            HitSkipped(rankings, merged, cells, Cell(rank, l));
          }
        } else {
          HitSkipped(rankings, merged, cells, Cell(rank, l));
        }
      }
      RankDone(rankings, merged, cells, rank);
    }
    assert Merged(rankings, merged, cells);
  }

  lemma HitAdded(rankings: seq<seq<Hit>>, merged: seq<Hit>, cells: seq<Cell>, c: Cell, x: Hit)
    requires MergedUpTo(rankings, merged, cells, c) && Holds(rankings, c, x) && x !in merged
    ensures MergedUpTo(rankings, merged + [x], cells + [c], Cell(c.rank, c.ranking + 1))
  {
  }

  lemma HitSkipped(rankings: seq<seq<Hit>>, merged: seq<Hit>, cells: seq<Cell>, c: Cell)
    requires MergedUpTo(rankings, merged, cells, c)
    requires forall x | Holds(rankings, c, x) :: x in merged
    ensures MergedUpTo(rankings, merged, cells, Cell(c.rank, c.ranking + 1))
  {
  }

  lemma RankDone(rankings: seq<seq<Hit>>, merged: seq<Hit>, cells: seq<Cell>, rank: nat)
    requires MergedUpTo(rankings, merged, cells, Cell(rank, |rankings|))
    ensures MergedUpTo(rankings, merged, cells, Cell(rank + 1, 0))
  {
  }

  /** A merged list names each hit of the rankings once. */
  lemma MergedOnce(rankings: seq<seq<Hit>>, merged: seq<Hit>, cells: seq<Cell>)
    requires Merged(rankings, merged, cells)
    ensures Distinct(merged)
    ensures forall x :: x in merged <==> exists c {:trigger Holds(rankings, c, x)} :: Holds(rankings, c, x)
  {
    forall a, b | 0 <= a < b < |merged| ensures merged[a] != merged[b] {
      assert Earlier(cells[a], cells[b]);
      assert BestPlace(rankings, cells[a], merged[a]) && BestPlace(rankings, cells[b], merged[b]);
    }
    forall x ensures x in merged <==> exists c {:trigger Holds(rankings, c, x)} :: Holds(rankings, c, x) {
      if x in merged {
        var a :| 0 <= a < |merged| && merged[a] == x;
        assert BestPlace(rankings, cells[a], merged[a]);
      }
    }
  }

  /** The merge is determined: hits by best rank, ties by the order of the rankings. */
  lemma {:induction false} MergedUnique(
    rankings: seq<seq<Hit>>, m1: seq<Hit>, c1: seq<Cell>, m2: seq<Hit>, c2: seq<Cell>, n: nat)
    requires Merged(rankings, m1, c1) && Merged(rankings, m2, c2) && n <= |m1| && n <= |m2|
    ensures m1[..n] == m2[..n] && c1[..n] == c2[..n]
  {
    if n > 0 {
      MergedUnique(rankings, m1, c1, m2, c2, n - 1);
      NextNotLater(rankings, m1, c1, m2, c2, n - 1);
      NextNotLater(rankings, m2, c2, m1, c1, n - 1);
      assert BestPlace(rankings, c1[n - 1], m1[n - 1]) && BestPlace(rankings, c2[n - 1], m2[n - 1]);
      assert m1[..n] == m1[..n - 1] + [m1[n - 1]] && m2[..n] == m2[..n - 1] + [m2[n - 1]];
      assert c1[..n] == c1[..n - 1] + [c1[n - 1]] && c2[..n] == c2[..n - 1] + [c2[n - 1]];
    }
  }

  lemma NextNotLater(rankings: seq<seq<Hit>>, m1: seq<Hit>, c1: seq<Cell>, m2: seq<Hit>, c2: seq<Cell>, n: nat)
    requires Merged(rankings, m1, c1) && Merged(rankings, m2, c2) && n < |m1| && n < |m2|
    requires m1[..n] == m2[..n] && c1[..n] == c2[..n]
    ensures !Earlier(c1[n], c2[n])
  {
    assert BestPlace(rankings, c1[n], m1[n]);
    var x := m1[n];
    assert Holds(rankings, c1[n], x) && x in m2;
    var b :| 0 <= b < |m2| && m2[b] == x;
    assert BestPlace(rankings, c2[b], m2[b]);
    assert c2[b] == c1[n];
    assert forall i | 0 <= i < n :: c2[i] == c2[..n][i] == c1[i];
    if b > n {
      assert Earlier(c2[n], c2[b]);
    }
  }

  /** Fairness: the best hit of every ranking is among the first places, one for each ranking. */
  lemma BestHitsFirst(rankings: seq<seq<Hit>>, merged: seq<Hit>, cells: seq<Cell>, l: nat)
    requires Merged(rankings, merged, cells) && l < |rankings| && rankings[l] != []
    ensures exists a | 0 <= a < |merged| && a < |rankings| :: merged[a] == rankings[l][0]
  {
    var x := rankings[l][0];
    assert Holds(rankings, Cell(0, l), x);
    var a :| 0 <= a < |merged| && merged[a] == x;
    assert BestPlace(rankings, cells[a], merged[a]);
    RankZeroPlaces(rankings, merged, cells, a);
  }

  lemma {:induction false} RankZeroPlaces(rankings: seq<seq<Hit>>, merged: seq<Hit>, cells: seq<Cell>, a: nat)
    requires Merged(rankings, merged, cells) && a < |cells| && cells[a].rank == 0
    ensures a <= cells[a].ranking
  {
    if a > 0 {
      assert Earlier(cells[a - 1], cells[a]);
      RankZeroPlaces(rankings, merged, cells, a - 1);
    }
  }

  // ------------------------------------------------------------------- selection

  /** The first hit of a target document. */
  predicate FirstOfTarget(ranked: seq<Hit>, targets: set<nat>, i: nat) {
    i < |ranked| && ranked[i].document in targets && forall j | 0 <= j < i :: ranked[j].document != ranked[i].document
  }

  function Covered(ranked: seq<Hit>, targets: set<nat>): set<nat> {
    set i | 0 <= i < |ranked| && ranked[i].document in targets :: ranked[i].document
  }

  /** The hits at the chosen positions, in order. */
  function Pick(ranked: seq<Hit>, chosen: set<nat>): seq<Hit> {
    if ranked == [] then []
    else
      var n := |ranked| - 1;
      Pick(ranked[..n], chosen) + if n in chosen then [ranked[n]] else []
  }

  /**
   The positions that coverage selection chooses: every target's first hit, and otherwise
   the best positions, until `k` hits or all the targets' first hits are chosen.
   */
  ghost predicate Chosen(ranked: seq<Hit>, targets: set<nat>, k: int, chosen: set<nat>) {
    && (forall i | i in chosen :: i < |ranked|)
    && (forall i {:trigger FirstOfTarget(ranked, targets, i)} | FirstOfTarget(ranked, targets, i) :: i in chosen)
    && (forall i, j | 0 <= i < j && j in chosen && !FirstOfTarget(ranked, targets, j) :: i in chosen)
    && |chosen| == Min(|ranked|, Max(k, |Covered(ranked, targets)|))
  }

  /** `hits` is what coverage selection returns. */
  ghost predicate IsSelection(ranked: seq<Hit>, targets: set<nat>, k: nat, hits: seq<Hit>) {
    if targets == {} then hits == ranked[..Min(k, |ranked|)]
    else
      exists chosen: set<nat> {:trigger Chosen(ranked, targets, k, chosen)} ::
        Chosen(ranked, targets, k, chosen) && hits == Pick(ranked, chosen)
  }

  method SelectCoverageHits(ranked: seq<Hit>, targets: set<nat>, k: nat) returns (hits: seq<Hit>)
    ensures IsSelection(ranked, targets, k, hits)
  {
    if targets == {} {
      return ranked[..Min(k, |ranked|)];
    }
    var required := RequiredPositions(ranked, targets);
    var effective := Max(k, |required|);
    var selected := required;
    var index := 0;
    while index < |ranked|
      invariant 0 <= index <= |ranked|
      invariant forall i {:trigger i in selected} :: i in selected <==> i in required || 0 <= i < index
      invariant |selected| <= effective
    {
      if |selected| >= effective {
        break;
      }
      selected := selected + {index};
      index := index + 1;
    }
    SizeOfSelection(ranked, selected, index, effective);
    hits := [];
    for i := 0 to |ranked|
      invariant hits == Pick(ranked[..i], selected)
    {
      assert ranked[..i + 1][..i] == ranked[..i];
      if i in selected {
        hits := hits + [ranked[i]];
      }
    }
    assert ranked[..|ranked|] == ranked;
    assert Chosen(ranked, targets, k, selected);
  }

  lemma SizeOfSelection(ranked: seq<Hit>, selected: set<nat>, index: nat, effective: int)
    requires index <= |ranked| && |selected| <= effective
    requires forall i | i in selected :: i < |ranked|
    requires forall i | 0 <= i < index :: i in selected
    requires index == |ranked| || |selected| >= effective
    ensures |selected| == Min(|ranked|, effective)
  {
    var all := Below(|ranked|);
    assert selected <= all;
    SubsetSize(selected, all);
    if index == |ranked| {
      assert selected == all;
    }
  }

  function Below(n: nat): (r: set<nat>)
    ensures forall i: nat {:trigger i in r} :: i in r <==> i < n
    ensures |r| == n
  {
    if n == 0 then {} else Below(n - 1) + {n - 1}
  }

  /** The required positions and the covered targets among the first `index` hits. */
  ghost predicate RequiredUpTo(ranked: seq<Hit>, targets: set<nat>, index: nat, required: set<nat>, covered: set<nat>)
    requires index <= |ranked|
  {
    && (forall i {:trigger i in required} :: i in required <==> 0 <= i < index && FirstOfTarget(ranked, targets, i))
    && covered == Covered(ranked[..index], targets) && |required| == |covered|
  }

  method RequiredPositions(ranked: seq<Hit>, targets: set<nat>) returns (required: set<nat>)
    ensures forall i {:trigger i in required} :: i in required <==> 0 <= i && FirstOfTarget(ranked, targets, i)
    ensures |required| == |Covered(ranked, targets)|
  {
    required := {};
    var covered: set<nat> := {};
    for index := 0 to |ranked|
      invariant RequiredUpTo(ranked, targets, index, required, covered)
    {
      var identity := ranked[index].document;
      RequiredGrows(ranked, targets, index, required, covered);
      if identity in targets && identity !in covered {
        covered := covered + {identity};
        required := required + {index};
      }
    }
    assert ranked[..|ranked|] == ranked;
  }

  lemma RequiredGrows(ranked: seq<Hit>, targets: set<nat>, index: nat, required: set<nat>, covered: set<nat>)
    requires index < |ranked| && RequiredUpTo(ranked, targets, index, required, covered)
    ensures var identity := ranked[index].document;
            if identity in targets && identity !in covered
            then RequiredUpTo(ranked, targets, index + 1, required + {index}, covered + {identity})
            else RequiredUpTo(ranked, targets, index + 1, required, covered)
  {
    CoveredGrows(ranked, targets, index);
    if FirstOfTarget(ranked, targets, index) {
      assert index !in required;
    } else {
      assert Covered(ranked[..index + 1], targets) == covered;
    }
  }

  lemma CoveredGrows(ranked: seq<Hit>, targets: set<nat>, index: nat)
    requires index < |ranked|
    ensures Covered(ranked[..index + 1], targets) ==
            Covered(ranked[..index], targets) + if ranked[index].document in targets then {ranked[index].document} else {}
    ensures FirstOfTarget(ranked, targets, index) <==>
            ranked[index].document in targets && ranked[index].document !in Covered(ranked[..index], targets)
  {
    var before, after := ranked[..index], ranked[..index + 1];
    assert forall i | 0 <= i < index :: after[i] == before[i] == ranked[i];
    forall d | d in Covered(after, targets) && d != ranked[index].document ensures d in Covered(before, targets) {
      var i :| 0 <= i < |after| && after[i].document in targets && after[i].document == d;
      assert before[i].document == d;
    }
    forall d | d in Covered(before, targets) ensures d in Covered(after, targets) {
      var i :| 0 <= i < |before| && before[i].document in targets && before[i].document == d;
      assert after[i].document == d;
    }
    if ranked[index].document in targets {
      assert after[index].document in Covered(after, targets);
      if !FirstOfTarget(ranked, targets, index) {
        var j :| 0 <= j < index && ranked[j].document == ranked[index].document;
        assert before[j].document in Covered(before, targets);
      }
    }
  }

  /** The choice is determined by its description. */
  lemma ChosenUnique(ranked: seq<Hit>, targets: set<nat>, k: int, a: set<nat>, b: set<nat>)
    requires Chosen(ranked, targets, k, a) && Chosen(ranked, targets, k, b)
    ensures a == b
  {
    if i :| i in a && i !in b {
      ExtraMeansMore(ranked, targets, k, a, b, i);
      SubsetSize(b, a);
    } else {
      SubsetSize(a, b);
    }
  }

  lemma ExtraMeansMore(ranked: seq<Hit>, targets: set<nat>, k: int, a: set<nat>, b: set<nat>, i: nat)
    requires Chosen(ranked, targets, k, a) && Chosen(ranked, targets, k, b)
    requires i in a && i !in b
    ensures b <= a
  {
    forall j | j in b ensures j in a {
      assert j < i || FirstOfTarget(ranked, targets, j);
    }
  }

  lemma {:induction false} PickFacts(ranked: seq<Hit>, chosen: set<nat>)
    requires Distinct(ranked)
    ensures forall x :: x in Pick(ranked, chosen) <==> exists i :: 0 <= i < |ranked| && i in chosen && ranked[i] == x
    ensures Distinct(Pick(ranked, chosen))
  {
    if ranked != [] {
      var n := |ranked| - 1;
      var before := ranked[..n];
      assert forall i | 0 <= i < n :: before[i] == ranked[i];
      PickFacts(before, chosen);
      assert ranked[n] !in Pick(before, chosen);
      var p := Pick(ranked, chosen);
      assert p == Pick(before, chosen) + if n in chosen then [ranked[n]] else [];
      assert forall a | 0 <= a < |Pick(before, chosen)| :: p[a] == Pick(before, chosen)[a];
      forall x ensures x in Pick(ranked, chosen) <==> exists i :: 0 <= i < |ranked| && i in chosen && ranked[i] == x {
        if x in Pick(before, chosen) {
          var i :| 0 <= i < n && i in chosen && before[i] == x;
          assert ranked[i] == x;
        }
        if i :| 0 <= i < |ranked| && i in chosen && ranked[i] == x {
          if i < n { assert before[i] == x; }
        }
      }
    }
  }

  function Within(chosen: set<nat>, n: nat): set<nat> {
    set i | i in chosen && i < n
  }

  lemma {:induction false} PickSize(ranked: seq<Hit>, chosen: set<nat>)
    ensures |Pick(ranked, chosen)| == |Within(chosen, |ranked|)|
  {
    if ranked != [] {
      var n := |ranked| - 1;
      PickSize(ranked[..n], chosen);
      assert Within(chosen, n + 1) == Within(chosen, n) + if n in chosen then {n} else {};
    } else {
      assert Within(chosen, 0) == {};
    }
  }

  /**
   After any permuting rerank of duplicate-free hits, the selection has no duplicates, has
   the promised length, and holds the best hit of every target document that was found.
   */
  lemma SelectionCovers(merged: seq<Hit>, ranked: seq<Hit>, targets: set<nat>, k: nat, chosen: set<nat>, document: nat)
    requires Distinct(merged)
    requires multiset(ranked) == multiset(merged) && Chosen(ranked, targets, k, chosen)
    ensures var hits := Pick(ranked, chosen);
            && Distinct(hits)
            && |hits| == Min(|merged|, Max(k, |Covered(ranked, targets)|))
            && (document in targets && (exists x | x in merged :: x.document == document) ==>
                 exists i: nat {:trigger FirstOfTarget(ranked, targets, i)} ::
                   FirstOfTarget(ranked, targets, i) && ranked[i].document == document && ranked[i] in hits)
  {
    PermutedDistinct(merged, ranked);
    PickFacts(ranked, chosen);
    PickSize(ranked, chosen);
    assert Within(chosen, |ranked|) == chosen;
    assert |ranked| == |multiset(ranked)| == |multiset(merged)| == |merged|;
    if document in targets && exists x | x in merged :: x.document == document {
      var x :| x in merged && x.document == document;
      assert x in multiset(merged) && x in multiset(ranked);
      var j :| 0 <= j < |ranked| && ranked[j] == x;
      var i := FirstPosition(ranked, document, j);
      assert FirstOfTarget(ranked, targets, i);
    }
  }

  lemma {:induction false} FirstPosition(ranked: seq<Hit>, document: nat, j: nat) returns (i: nat)
    requires j < |ranked| && ranked[j].document == document
    ensures i <= j && ranked[i].document == document && forall m | 0 <= m < i :: ranked[m].document != document
  {
    if m :| 0 <= m < j && ranked[m].document == document {
      i := FirstPosition(ranked, document, m);
    } else {
      i := j;
    }
  }

  lemma PermutedDistinct(a: seq<Hit>, b: seq<Hit>)
    requires Distinct(a)
    requires multiset(a) == multiset(b)
    ensures Distinct(b)
  {
    forall i, j | 0 <= i < j < |b| ensures b[i] != b[j] {
      if b[i] == b[j] {
        TwiceIn(b, i, j);
        OnceIn(a, b[i]);
        assert false;
      }
    }
  }

  lemma TwiceIn(s: seq<Hit>, i: nat, j: nat)
    requires i < j < |s| && s[i] == s[j]
    ensures multiset(s)[s[i]] >= 2
  {
    assert s == s[..j] + [s[j]] + s[j + 1..];
    assert s[..j][i] == s[j];
    assert s[j] in multiset(s[..j]);
  }

  lemma {:induction false} OnceIn(s: seq<Hit>, x: Hit)
    requires Distinct(s)
    ensures multiset(s)[x] <= 1
  {
    if s != [] {
      var n := |s| - 1;
      OnceIn(s[..n], x);
      assert s == s[..n] + [s[n]];
      if s[n] == x {
        assert x !in s[..n];
      }
    }
  }

  /** The merged hits as the reranker orders them, if there is one and it answers. */
  function Ranked(rerank: Option<seq<Hit> -> Option<seq<Hit>>>, merged: seq<Hit>): seq<Hit> {
    if rerank.Some? && merged != [] && rerank.value(merged).Some? then rerank.value(merged).value else merged
  }

  /** What the tail of a query returns: a selection from the merge, or from its rerank. */
  ghost predicate IsOutcome(
    rankings: seq<seq<Hit>>, rerank: Option<seq<Hit> -> Option<seq<Hit>>>, targets: set<nat>, k: nat, merged: seq<Hit>,
    hits: seq<Hit>)
  {
    && IsMerge(rankings, merged)
    && IsSelection(Ranked(rerank, merged), targets, k, hits)
  }

  /** Every hit of the rankings. */
  ghost function HitsOf(rankings: seq<seq<Hit>>): set<Hit> {
    set l, r {:trigger rankings[l][r]} | 0 <= l < |rankings| && 0 <= r < |rankings[l]| :: rankings[l][r]
  }

  /** The target documents with a hit in some ranking. */
  ghost function TargetsFound(rankings: seq<seq<Hit>>, targets: set<nat>): set<nat> {
    set x | x in HitsOf(rankings) && x.document in targets :: x.document
  }

  /** A reranker only reorders. */
  ghost predicate Permutes(rerank: seq<Hit> -> Option<seq<Hit>>) {
    forall hits {:trigger rerank(hits)} :: rerank(hits).Some? ==> multiset(rerank(hits).value) == multiset(hits)
  }

  /** `hits` keeps the order of `ranked`. */
  ghost predicate InOrder(ranked: seq<Hit>, hits: seq<Hit>) {
    exists at: seq<nat> {:trigger |at|} ::
      && |at| == |hits| && (forall a | 0 <= a < |at| :: at[a] < |ranked| && ranked[at[a]] == hits[a])
      && (forall a, b | 0 <= a < b < |at| :: at[a] < at[b])
  }

  lemma {:induction false} PickInOrder(ranked: seq<Hit>, chosen: set<nat>) returns (at: seq<nat>)
    ensures |at| == |Pick(ranked, chosen)|
    ensures forall a | 0 <= a < |at| :: at[a] < |ranked| && ranked[at[a]] == Pick(ranked, chosen)[a]
    ensures forall a, b | 0 <= a < b < |at| :: at[a] < at[b]
  {
    at := [];
    if ranked != [] {
      var n := |ranked| - 1;
      at := PickInOrder(ranked[..n], chosen);
      if n in chosen { at := at + [n]; }
    }
  }

  /** The merge lists exactly the hits of the rankings, each once. */
  lemma MergeSize(rankings: seq<seq<Hit>>, merged: seq<Hit>)
    requires IsMerge(rankings, merged)
    ensures Distinct(merged) && |merged| == |HitsOf(rankings)| && forall x :: x in merged <==> x in HitsOf(rankings)
  {
    var cells: seq<Cell> :| Merged(rankings, merged, cells);
    MergedOnce(rankings, merged, cells);
    forall x ensures x in merged <==> x in HitsOf(rankings) {
      if c :| Holds(rankings, c, x) {
        assert rankings[c.ranking][c.rank] in HitsOf(rankings);
      }
      if x in HitsOf(rankings) {
        var l, r :| 0 <= l < |rankings| && 0 <= r < |rankings[l]| && rankings[l][r] == x;
        assert Holds(rankings, Cell(r, l), x);
      }
    }
    OnceSize(merged);
    assert HitsOf(rankings) == set x | x in merged;
  }

  lemma {:induction false} OnceSize(hits: seq<Hit>)
    requires Distinct(hits)
    ensures |set x | x in hits| == |hits|
  {
    if hits != [] {
      var n := |hits| - 1;
      OnceSize(hits[..n]);
      assert hits == hits[..n] + [hits[n]];
      assert (set x | x in hits) == (set x | x in hits[..n]) + {hits[n]};
    }
  }

  lemma CoveredAreFound(rankings: seq<seq<Hit>>, ranked: seq<Hit>, targets: set<nat>)
    requires forall x :: x in ranked <==> x in HitsOf(rankings)
    ensures Covered(ranked, targets) == TargetsFound(rankings, targets)
  {
    forall d | d in TargetsFound(rankings, targets) ensures d in Covered(ranked, targets) {
      var x :| x in HitsOf(rankings) && x.document in targets && x.document == d;
      var i :| 0 <= i < |ranked| && ranked[i] == x;
    }
    forall d | d in Covered(ranked, targets) ensures d in TargetsFound(rankings, targets) {
      var i :| 0 <= i < |ranked| && ranked[i].document in targets && ranked[i].document == d;
      assert ranked[i] in HitsOf(rankings);
    }
  }

  /** The first hit of every target document that any ranking holds is returned. */
  ghost predicate TargetsHeld(rankings: seq<seq<Hit>>, ranked: seq<Hit>, targets: set<nat>, hits: seq<Hit>) {
    forall d {:trigger d in TargetsFound(rankings, targets)} | d in TargetsFound(rankings, targets) ::
      exists i: nat {:trigger FirstOfTarget(ranked, targets, i)} ::
        FirstOfTarget(ranked, targets, i) && ranked[i].document == d && ranked[i] in hits
  }

  /** The hits of the query, in the order of the merge or its rerank. */
  lemma RankedHits(rankings: seq<seq<Hit>>, rerank: Option<seq<Hit> -> Option<seq<Hit>>>, targets: set<nat>, merged: seq<Hit>)
    requires IsMerge(rankings, merged) && (rerank.Some? ==> Permutes(rerank.value))
    ensures var ranked := Ranked(rerank, merged);
            && multiset(ranked) == multiset(merged) && Distinct(merged) && Distinct(ranked)
            && |ranked| == |merged| == |HitsOf(rankings)| && (forall x :: x in ranked <==> x in HitsOf(rankings))
            && Covered(ranked, targets) == TargetsFound(rankings, targets)
  {
    var ranked := Ranked(rerank, merged);
    MergeSize(rankings, merged);
    assert multiset(ranked) == multiset(merged);
    forall x ensures x in ranked <==> x in HitsOf(rankings) {
      assert x in multiset(ranked) <==> x in multiset(merged);
    }
    CoveredAreFound(rankings, ranked, targets);
    PermutedDistinct(merged, ranked);
    assert |ranked| == |multiset(ranked)| == |multiset(merged)| == |merged|;
  }

  lemma ChosenHolds(
    rankings: seq<seq<Hit>>, merged: seq<Hit>, ranked: seq<Hit>, targets: set<nat>, k: nat, chosen: set<nat>)
    requires Distinct(merged) && multiset(ranked) == multiset(merged) && Chosen(ranked, targets, k, chosen)
    requires forall x :: x in ranked <==> x in HitsOf(rankings)
    ensures TargetsHeld(rankings, ranked, targets, Pick(ranked, chosen))
  {
    forall d | d in TargetsFound(rankings, targets)
      ensures exists i: nat {:trigger FirstOfTarget(ranked, targets, i)} ::
                FirstOfTarget(ranked, targets, i) && ranked[i].document == d && ranked[i] in Pick(ranked, chosen)
    {
      var x :| x in HitsOf(rankings) && x.document in targets && x.document == d;
      assert x in ranked && x in multiset(ranked) && x in multiset(merged);
      assert x in merged;
      SelectionCovers(merged, ranked, targets, k, chosen, d);
    }
  }

  /** What a selection with targets returns. */
  lemma ChosenOutcome(ranked: seq<Hit>, targets: set<nat>, k: nat, chosen: set<nat>)
    requires Distinct(ranked) && Chosen(ranked, targets, k, chosen)
    ensures var hits := Pick(ranked, chosen);
            && Distinct(hits) && InOrder(ranked, hits) && (forall x | x in hits :: x in ranked)
            && |hits| == Min(|ranked|, Max(k, |Covered(ranked, targets)|)) && BestOthers(ranked, targets, hits)
  {
    SelectionCovers(ranked, ranked, targets, k, chosen, 0);
    PickFacts(ranked, chosen);
    var at := PickInOrder(ranked, chosen);
    ChosenBestOthers(ranked, targets, k, chosen);
  }

  /** What a selection without targets returns. */
  lemma PrefixOutcome(ranked: seq<Hit>, targets: set<nat>, k: nat)
    requires Distinct(ranked) && targets == {}
    ensures var hits := ranked[..Min(k, |ranked|)];
            && Distinct(hits) && InOrder(ranked, hits) && (forall x | x in hits :: x in ranked)
            && |hits| == Min(|ranked|, Max(k, |Covered(ranked, targets)|)) && BestOthers(ranked, targets, hits)
  {
    PrefixInOrder(ranked, Min(k, |ranked|));
    PrefixBestOthers(ranked, targets, Min(k, |ranked|));
    assert Covered(ranked, targets) == {};
  }

  /**
   What a query returns, from the rankings alone: hits of the rankings, each once and in the
   order of the merge or its rerank; as many as promised; the first hit of every target
   document that any ranking holds; and, of the others, the best.
   */
  lemma OutcomeCovers(
    rankings: seq<seq<Hit>>, rerank: Option<seq<Hit> -> Option<seq<Hit>>>, targets: set<nat>, k: nat, merged: seq<Hit>, hits: seq<Hit>)
    requires rerank.Some? ==> Permutes(rerank.value)
    requires IsOutcome(rankings, rerank, targets, k, merged, hits)
    ensures var ranked := Ranked(rerank, merged);
            && Distinct(hits) && InOrder(ranked, hits) && (forall x | x in hits :: x in HitsOf(rankings))
            && |hits| == Min(|HitsOf(rankings)|, Max(k, |TargetsFound(rankings, targets)|))
            && TargetsHeld(rankings, ranked, targets, hits) && BestOthers(ranked, targets, hits)
    ensures rerank.Some? && merged != [] && rerank.value(merged).Some? ==> InOrder(rerank.value(merged).value, hits)
    ensures rerank.None? || rerank.value(merged).None? ==> InOrder(merged, hits)
  {
    var ranked := Ranked(rerank, merged);
    RankedHits(rankings, rerank, targets, merged);
    if targets == {} {
      PrefixOutcome(ranked, targets, k);
    } else {
      var chosen: set<nat> :| Chosen(ranked, targets, k, chosen) && hits == Pick(ranked, chosen);
      ChosenOutcome(ranked, targets, k, chosen);
      ChosenHolds(rankings, merged, ranked, targets, k, chosen);
    }
  }

  /** A hit that is no target's first is chosen only together with all hits before it. */
  ghost predicate BestOthers(ranked: seq<Hit>, targets: set<nat>, hits: seq<Hit>) {
    forall i, j {:trigger ranked[i], ranked[j]} |
      0 <= i < j < |ranked| && ranked[j] in hits && !FirstOfTarget(ranked, targets, j) :: ranked[i] in hits
  }

  lemma ChosenBestOthers(ranked: seq<Hit>, targets: set<nat>, k: int, chosen: set<nat>)
    requires Distinct(ranked) && Chosen(ranked, targets, k, chosen)
    ensures BestOthers(ranked, targets, Pick(ranked, chosen))
  {
    PickFacts(ranked, chosen);
    var hits := Pick(ranked, chosen);
    forall i, j {:trigger ranked[i], ranked[j]} |
      0 <= i < j < |ranked| && ranked[j] in hits && !FirstOfTarget(ranked, targets, j)
      ensures ranked[i] in hits
    {
      assert j in chosen;
      assert i in chosen;
    }
  }

  lemma PrefixBestOthers(ranked: seq<Hit>, targets: set<nat>, n: nat)
    requires Distinct(ranked) && n <= |ranked|
    ensures BestOthers(ranked, targets, ranked[..n])
  {
    var hits := ranked[..n];
    forall i, j {:trigger ranked[i], ranked[j]} | 0 <= i < j < |ranked| && ranked[j] in hits ensures ranked[i] in hits {
      assert j < n;
      assert ranked[i] == hits[i];
    }
  }

  lemma PrefixInOrder(ranked: seq<Hit>, n: nat)
    requires n <= |ranked|
    ensures InOrder(ranked, ranked[..n])
  {
    var at: seq<nat> := seq(n, i requires 0 <= i < n => i);
    assert |at| == n;
  }

  lemma MergeUnique(rankings: seq<seq<Hit>>, m1: seq<Hit>, m2: seq<Hit>)
    requires IsMerge(rankings, m1) && IsMerge(rankings, m2)
    ensures m1 == m2
  {
    var c1: seq<Cell> :| Merged(rankings, m1, c1);
    var c2: seq<Cell> :| Merged(rankings, m2, c2);
    MergeSize(rankings, m1);
    MergeSize(rankings, m2);
    MergedUnique(rankings, m1, c1, m2, c2, |m1|);
    assert m1[..|m1|] == m1 && m2[..|m2|] == m2;
  }

  /** The tail of a workspace query: merge, rerank if there is a reranker, select. */
  method Invoke(
      rankings: seq<seq<Hit>>, rerank: Option<seq<Hit> -> Option<seq<Hit>>>, fallback: bool, targets: set<nat>, k: nat)
    returns (r: Result<seq<Hit>>)
    ensures r.Ok? ==> exists merged: seq<Hit> {:trigger IsMerge(rankings, merged)} ::
                        IsOutcome(rankings, rerank, targets, k, merged, r.value)
    ensures r.Err? ==> r.error.RerankerFailed?
    ensures r.Err? <==> rerank.Some? && !fallback
                        && exists merged: seq<Hit> {:trigger IsMerge(rankings, merged)} ::
                             IsMerge(rankings, merged) && merged != [] && rerank.value(merged).None?
  {
    var merged := RoundRobin(rankings);
    forall other | IsMerge(rankings, other) ensures other == merged {
      MergeUnique(rankings, other, merged);
    }
    var hits := merged;
    if rerank.Some? && merged != [] {
      var reordered := rerank.value(merged);
      if reordered.Some? {
        hits := reordered.value;
      } else if !fallback {
        return Err(RerankerFailed);
      }
    }
    var selected := SelectCoverageHits(hits, targets, k);
    assert IsOutcome(rankings, rerank, targets, k, merged, selected);
    r := Ok(selected);
  }
}
