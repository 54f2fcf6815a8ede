/**
 The BM25 index: an inverted index with postings lists, searched term by term, and the
 direct score of every document that it must agree with.

 Documents and queries are token sequences, scores are reals, and `log1p` is a parameter.
 */
module Bm25 {
  import opened Basics
  import opened Ranking

  type Term = string

  type Document = seq<Term>

  datatype Posting = Posting(document: nat, frequency: nat)

  // ------------------------------------------------------------ direct scoring

  function Frequency(d: Document, t: Term): nat {
    multiset(d)[t]
  }

  function TotalLength(docs: seq<Document>): nat {
    if docs == [] then 0 else TotalLength(docs[..|docs| - 1]) + |docs[|docs| - 1]|
  }

  function Average(docs: seq<Document>): real {
    TotalLength(docs) as real / (if docs == [] then 1 else |docs|) as real
  }

  /** The number of documents that contain a term. */
  function DocumentFrequency(docs: seq<Document>, t: Term): nat {
    if docs == [] then 0
    else DocumentFrequency(docs[..|docs| - 1], t) + if Frequency(docs[|docs| - 1], t) > 0 then 1 else 0
  }

  function Idf(count: nat, containing: nat, log1p: real -> real): real {
    log1p((count as real - containing as real + 0.5) / (containing as real + 0.5))
  }

  /** What one occurrence count adds to a score. */
  function Weight(idf: real, frequency: nat, length: nat, average: real): real
    requires frequency > 0 && average > 0.0
  {
    var norm := 1.5 * (0.25 + 0.75 * length as real / average);
    NormPositive(length, average);
    idf * frequency as real * 2.5 / (frequency as real + norm)
  }

  lemma NormPositive(length: nat, average: real)
    requires average > 0.0
    ensures 1.5 * (0.25 + 0.75 * length as real / average) > 0.0
  {
    var q := 0.75 * length as real / average;
    assert q * average == 0.75 * length as real;
    assert q >= 0.0;
  }

  // ------------------------------------------------------------- how a score moves

  /** The saturation of a weight: `weight * (frequency + norm) == idf * frequency * 2.5`. */
  lemma WeightEquation(idf: real, frequency: nat, length: nat, average: real, norm: real)
    requires frequency > 0 && average > 0.0 && norm == 0.375 + 1.125 * length as real / average
    ensures norm > 0.0
    ensures Weight(idf, frequency, length, average) * (frequency as real + norm) == idf * frequency as real * 2.5
  {
    NormPositive(length, average);
    assert 1.5 * (0.25 + 0.75 * length as real / average) == norm by {
      var q := length as real / average;
      assert 0.75 * length as real / average == 0.75 * q && 1.125 * length as real / average == 1.125 * q;
    }
  }

  lemma Cancel(x: real, y: real, d: real)
    requires d > 0.0
    ensures x * d < y * d <==> x < y
    ensures x * d == y * d <==> x == y
  {
    assert (y - x) * d == y * d - x * d;
  }

  /** In a document of average length one occurrence weighs the rarity of its term, and no number of them two and a half times that. */
  lemma WeightAtAverage(idf: real, frequency: nat, length: nat)
    requires frequency > 0 && length > 0 && idf > 0.0
    ensures Weight(idf, 1, length, length as real) == idf
    ensures 0.0 < Weight(idf, frequency, length, length as real) < 2.5 * idf
  {
    ItsShare(1.125, length as real);
    WeightEquation(idf, 1, length, length as real, 1.5);
    WeightEquation(idf, frequency, length, length as real, 1.5);
    Saturates(idf, 1.0, Weight(idf, 1, length, length as real));
    Saturates(idf, frequency as real, Weight(idf, frequency, length, length as real));
  }

  lemma ItsShare(x: real, d: real)
    requires d > 0.0
    ensures x * d / d == x
  {
    var q := x * d / d;
    assert q * d == x * d;
    Cancel(q, x, d);
  }

  lemma Saturates(idf: real, f: real, w: real)
    requires f > 0.0 && idf > 0.0 && w * (f + 1.5) == idf * f * 2.5
    ensures 0.0 < w < 2.5 * idf && (f == 1.0 ==> w == idf)
  {
    assert idf * f > 0.0;
    Cancel(0.0, w, f + 1.5);
    Cancel(w, 2.5 * idf, f + 1.5);
  }

  /** More occurrences weigh more. */
  lemma MoreOccurrencesWeighMore(idf: real, f: nat, g: nat, length: nat, average: real)
    requires 0 < f < g && average > 0.0 && idf > 0.0
    ensures Weight(idf, f, length, average) < Weight(idf, g, length, average)
  {
    var norm := 0.375 + 1.125 * length as real / average;
    WeightEquation(idf, f, length, average, norm);
    WeightEquation(idf, g, length, average, norm);
    var v, w, x, y := Weight(idf, f, length, average), Weight(idf, g, length, average), f as real, g as real;
    var c := idf * 2.5;
    Grows(v, w, x, y, norm, c);
  }

  lemma Grows(v: real, w: real, x: real, y: real, norm: real, c: real)
    requires 0.0 < x < y && norm > 0.0 && c > 0.0
    requires v * (x + norm) == c * x && w * (y + norm) == c * y
    ensures v < w
  {
    assert (c * y) * (x + norm) - (c * x) * (y + norm) == c * norm * (y - x);
    assert c * norm > 0.0;
    assert c * norm * (y - x) > 0.0;
    assert (w * (x + norm)) * (y + norm) == (w * (y + norm)) * (x + norm);
    assert (v * (x + norm)) * (y + norm) == (c * x) * (y + norm);
    Cancel(v * (x + norm), w * (x + norm), y + norm);
    Cancel(v, w, x + norm);
  }

  /** In a longer document the same occurrences weigh less. */
  lemma LongerWeighsLess(idf: real, f: nat, length: nat, longer: nat, average: real)
    requires f > 0 && length < longer && average > 0.0 && idf > 0.0
    ensures Weight(idf, f, longer, average) < Weight(idf, f, length, average)
  {
    var m, n := 0.375 + 1.125 * length as real / average, 0.375 + 1.125 * longer as real / average;
    WeightEquation(idf, f, length, average, m);
    WeightEquation(idf, f, longer, average, n);
    Quotient(1.125 * length as real, 1.125 * longer as real, average);
    var v, w, x := Weight(idf, f, length, average), Weight(idf, f, longer, average), f as real;
    assert idf * x > 0.0;
    Cancel(0.0, w, x + n);
    assert w * (x + m) < w * (x + n) by { assert w * (n - m) > 0.0; }
    Cancel(w, v, x + m);
  }

  lemma Quotient(x: real, y: real, d: real)
    requires x < y && d > 0.0
    ensures x / d < y / d
  {
    var p, q := x / d, y / d;
    assert p * d == x && q * d == y;
    Cancel(p, q, d);
  }

  ghost predicate Increasing(log1p: real -> real) {
    forall x, y {:trigger log1p(x), log1p(y)} | -1.0 < x < y :: log1p(x) < log1p(y)
  }

  /** A term that fewer documents contain counts more. */
  lemma RarerCountsMore(count: nat, m: nat, n: nat, log1p: real -> real)
    requires m < n <= count && Increasing(log1p)
    ensures Idf(count, n, log1p) < Idf(count, m, log1p)
  {
    var x, y := m as real + 0.5, n as real + 0.5;
    var p, q := (count as real - m as real + 0.5) / x, (count as real - n as real + 0.5) / y;
    assert p * x == count as real + 1.0 - x && q * y == count as real + 1.0 - y;
    assert q * y >= 0.5;
    Cancel(0.0, q, y);
    assert (p + 1.0) * x == count as real + 1.0 && (q + 1.0) * y == count as real + 1.0;
    assert (q + 1.0) * x < (q + 1.0) * y by { assert (q + 1.0) * (y - x) > 0.0; }
    Cancel(q + 1.0, p + 1.0, x);
  }

  /** The odds of not containing a term, with half a document added on both sides. */
  lemma IdfOdds(count: nat, n: nat, log1p: real -> real, odds: real)
    requires n <= count && odds * (2 * n + 1) as real == (2 * (count - n) + 1) as real
    ensures Idf(count, n, log1p) == log1p(odds)
  {
    var y := n as real + 0.5;
    var q := (count as real - n as real + 0.5) / y;
    assert q * y == count as real - n as real + 0.5;
    assert q * (2.0 * y) == odds * (2.0 * y);
    Cancel(q, odds, 2.0 * y);
  }

  /** A term's contribution to a document's score, from the document's own counts. */
  function Contribution(docs: seq<Document>, log1p: real -> real, i: nat, t: Term): real
    requires i < |docs| && Average(docs) > 0.0
  {
    var f := Frequency(docs[i], t);
    if f == 0 then 0.0
    else Weight(Idf(|docs|, DocumentFrequency(docs, t), log1p), f, |docs[i]|, Average(docs))
  }

  ghost predicate LogLike(log1p: real -> real) {
    Increasing(log1p) && log1p(0.0) == 0.0
  }

  lemma {:induction false} ContainingAtMostAll(docs: seq<Document>, t: Term)
    ensures DocumentFrequency(docs, t) <= |docs|
  {
    if docs != [] { ContainingAtMostAll(docs[..|docs| - 1], t); }
  }

  lemma RarityPositive(count: nat, n: nat, log1p: real -> real)
    requires n <= count && LogLike(log1p)
    ensures Idf(count, n, log1p) > 0.0
  {
    var y := n as real + 0.5;
    var q := (count as real - n as real + 0.5) / y;
    assert q * y == count as real - n as real + 0.5;
    Cancel(0.0, q, y);
    assert log1p(0.0) < log1p(q);
  }

  lemma RarityOf(docs: seq<Document>, t: Term, log1p: real -> real) returns (idf: real)
    requires LogLike(log1p)
    ensures idf == Idf(|docs|, DocumentFrequency(docs, t), log1p) > 0.0
  {
    ContainingAtMostAll(docs, t);
    RarityPositive(|docs|, DocumentFrequency(docs, t), log1p);
    idf := Idf(|docs|, DocumentFrequency(docs, t), log1p);
  }

  /** A greater factor, the same saturation. */
  lemma WeightGrows(v: real, w: real, norm: real, c: real, d: real, x: real)
    requires norm > 0.0 && x > 0.0 && c < d && v * (x + norm) == c * x * 2.5 && w * (x + norm) == d * x * 2.5
    ensures v < w
  {
    Cancel(c, d, x);
    assert v * (x + norm) < w * (x + norm);
    Cancel(v, w, x + norm);
  }

  lemma RarerWeighsMore(c: real, d: real, f: nat, length: nat, average: real)
    requires f > 0 && average > 0.0 && c < d
    ensures Weight(c, f, length, average) < Weight(d, f, length, average)
  {
    var norm := 0.375 + 1.125 * length as real / average;
    WeightEquation(c, f, length, average, norm);
    WeightEquation(d, f, length, average, norm);
    WeightGrows(Weight(c, f, length, average), Weight(d, f, length, average), norm, c, d, f as real);
  }

  /** Of two terms that a document contains equally often, the one that fewer documents contain contributes more. */
  lemma RarerContributesMore(docs: seq<Document>, log1p: real -> real, i: nat, t: Term, u: Term)
    requires i < |docs| && Average(docs) > 0.0 && Increasing(log1p)
    requires 0 < Frequency(docs[i], t) == Frequency(docs[i], u) && DocumentFrequency(docs, t) < DocumentFrequency(docs, u)
    ensures Contribution(docs, log1p, i, u) < Contribution(docs, log1p, i, t)
  {
    ContainingAtMostAll(docs, u);
    RarerCountsMore(|docs|, DocumentFrequency(docs, t), DocumentFrequency(docs, u), log1p);
    RarerWeighsMore(
      Idf(|docs|, DocumentFrequency(docs, u), log1p), Idf(|docs|, DocumentFrequency(docs, t), log1p),
      Frequency(docs[i], t), |docs[i]|, Average(docs));
  }

  /** Of two documents that contain a term equally often, it contributes more to the shorter one. */
  lemma ShorterGainsMore(docs: seq<Document>, log1p: real -> real, i: nat, j: nat, t: Term)
    requires i < |docs| && j < |docs| && Average(docs) > 0.0 && LogLike(log1p)
    requires 0 < Frequency(docs[i], t) == Frequency(docs[j], t) && |docs[i]| < |docs[j]|
    ensures Contribution(docs, log1p, j, t) < Contribution(docs, log1p, i, t)
  {
    var idf := RarityOf(docs, t, log1p);
    LongerWeighsLess(idf, Frequency(docs[i], t), |docs[i]|, |docs[j]|, Average(docs));
  }

  /** Of two documents of one length, a term contributes more to the one that contains it more often. */
  lemma MoreOftenGainsMore(docs: seq<Document>, log1p: real -> real, i: nat, j: nat, t: Term)
    requires i < |docs| && j < |docs| && Average(docs) > 0.0 && LogLike(log1p)
    requires 0 < Frequency(docs[i], t) < Frequency(docs[j], t) && |docs[i]| == |docs[j]|
    ensures Contribution(docs, log1p, i, t) < Contribution(docs, log1p, j, t)
  {
    var idf := RarityOf(docs, t, log1p);
    MoreOccurrencesWeighMore(idf, Frequency(docs[i], t), Frequency(docs[j], t), |docs[i]|, Average(docs));
  }

  /** The sum of the contributions of a set of terms; the order does not matter. */
  ghost function Score(docs: seq<Document>, log1p: real -> real, i: nat, terms: set<Term>): real
    requires i < |docs| && Average(docs) > 0.0
  {
    if terms == {} then 0.0
    else
      var t :| t in terms;
      Score(docs, log1p, i, terms - {t}) + Contribution(docs, log1p, i, t)
  }

  lemma {:induction false} ScoreAnyOrder(docs: seq<Document>, log1p: real -> real, i: nat, terms: set<Term>, t: Term)
    requires i < |docs| && Average(docs) > 0.0 && t in terms
    ensures Score(docs, log1p, i, terms) == Score(docs, log1p, i, terms - {t}) + Contribution(docs, log1p, i, t)
    decreases |terms|
  {
    var u :| u in terms && Score(docs, log1p, i, terms) == Score(docs, log1p, i, terms - {u}) + Contribution(docs, log1p, i, u);
    if u != t {
      ScoreAnyOrder(docs, log1p, i, terms - {u}, t);
      ScoreAnyOrder(docs, log1p, i, terms - {t}, u);
      assert terms - {u} - {t} == terms - {t} - {u};
    }
  }

  predicate Shares(d: Document, terms: set<Term>) {
    exists t | t in terms :: Frequency(d, t) > 0
  }

  /** The documents that share a term with the query, by position. */
  function Candidates(docs: seq<Document>, terms: set<Term>): (r: seq<nat>)
    ensures forall i | i in r :: i < |docs| && Shares(docs[i], terms)
  {
    if docs == [] then []
    else
      var n := |docs| - 1;
      Candidates(docs[..n], terms) + if Shares(docs[n], terms) then [n] else []
  }

  // -------------------------------------------------------------- inverted index

  /** The postings of a term: each document that contains it, by position, with its frequency. */
  function PostingsOf(docs: seq<Document>, t: Term): seq<Posting> {
    if docs == [] then []
    else
      var n := |docs| - 1;
      PostingsOf(docs[..n], t) + if Frequency(docs[n], t) > 0 then [Posting(n, Frequency(docs[n], t))] else []
  }

  function Lookup(postings: map<Term, seq<Posting>>, t: Term): seq<Posting> {
    if t in postings then postings[t] else []
  }

  ghost predicate Indexed(docs: seq<Document>, postings: map<Term, seq<Posting>>) {
    forall t {:trigger Lookup(postings, t)} :: Lookup(postings, t) == PostingsOf(docs, t)
  }

  ghost predicate EntryOk(docs: seq<Document>, t: Term, p: Posting) {
    p.document < |docs| && p.frequency == Frequency(docs[p.document], t) && p.frequency > 0
  }

  /** Every posting carries the document's own count, and there is one for each containing document. */
  lemma {:induction false} PostingsSound(docs: seq<Document>, t: Term)
    ensures |PostingsOf(docs, t)| == DocumentFrequency(docs, t)
    ensures forall p {:trigger EntryOk(docs, t, p)} | p in PostingsOf(docs, t) :: EntryOk(docs, t, p)
  {
    if docs != [] {
      var n := |docs| - 1;
      PostingsSound(docs[..n], t);
      forall p | p in PostingsOf(docs, t) ensures EntryOk(docs, t, p) {
        if p in PostingsOf(docs[..n], t) { assert EntryOk(docs[..n], t, p); }
      }
    }
  }

  lemma {:induction false} PostingsComplete(docs: seq<Document>, t: Term, i: nat)
    requires i < |docs| && Frequency(docs[i], t) > 0
    ensures Posting(i, Frequency(docs[i], t)) in PostingsOf(docs, t)
  {
    if i < |docs| - 1 {
      PostingsComplete(docs[..|docs| - 1], t, i);
    }
  }

  /** Postings are in document order, so no document appears twice. */
  lemma {:induction false} PostingsOrdered(docs: seq<Document>, t: Term, a: nat, b: nat)
    requires a < b < |PostingsOf(docs, t)|
    ensures PostingsOf(docs, t)[a].document < PostingsOf(docs, t)[b].document < |docs|
  {
    var n := |docs| - 1;
    var before := PostingsOf(docs[..n], t);
    PostingsSound(docs[..n], t);
    assert EntryOk(docs[..n], t, before[a]);
    if b < |before| {
      PostingsOrdered(docs[..n], t, a, b);
    }
  }

  /** One pass over the documents, one entry for each distinct term of each. */
  method BuildPostings(docs: seq<Document>) returns (postings: map<Term, seq<Posting>>, lengths: seq<nat>)
    ensures Indexed(docs, postings)
    ensures lengths == seq(|docs|, i requires 0 <= i < |docs| => |docs[i]|)
  {
    postings := map[];
    lengths := [];
    for i := 0 to |docs|
      invariant Indexed(docs[..i], postings)
      invariant |lengths| == i && forall k | 0 <= k < i :: lengths[k] == |docs[k]|
    {
      lengths := lengths + [|docs[i]|];
      postings := AddDocument(docs[..i], docs[i], postings);
      assert docs[..i + 1] == docs[..i] + [docs[i]];
    }
    assert docs[..|docs|] == docs;
  }

  /** The postings while the terms `rest` of one more document are still to be added. */
  ghost predicate PartlyIndexed(
    docs: seq<Document>, d: Document, rest: set<Term>, postings: map<Term, seq<Posting>>)
  {
    forall t {:trigger Lookup(postings, t)} ::
      Lookup(postings, t) == if t in d && t !in rest then PostingsOf(docs + [d], t) else PostingsOf(docs, t)
  }

  lemma PostingsGrow(docs: seq<Document>, d: Document, t: Term)
    ensures PostingsOf(docs + [d], t) ==
            PostingsOf(docs, t) + if Frequency(d, t) > 0 then [Posting(|docs|, Frequency(d, t))] else []
  {
    assert (docs + [d])[..|docs|] == docs;
  }

  lemma TermIndexed(
    docs: seq<Document>, d: Document, rest: set<Term>, postings: map<Term, seq<Posting>>, term: Term,
    postings': map<Term, seq<Posting>>)
    requires PartlyIndexed(docs, d, rest, postings) && term in rest && term in d
    requires postings' == postings[term := Lookup(postings, term) + [Posting(|docs|, Frequency(d, term))]]
    ensures PartlyIndexed(docs, d, rest - {term}, postings')
  {
    PostingsGrow(docs, d, term);
    assert Lookup(postings, term) == PostingsOf(docs, term);
    forall t {:trigger Lookup(postings', t)}
      ensures Lookup(postings', t) == if t in d && t !in rest - {term} then PostingsOf(docs + [d], t) else PostingsOf(docs, t)
    {
      if t != term { assert Lookup(postings', t) == Lookup(postings, t); }
    }
  }

  lemma AllIndexed(docs: seq<Document>, d: Document, postings: map<Term, seq<Posting>>)
    requires PartlyIndexed(docs, d, {}, postings)
    ensures Indexed(docs + [d], postings)
  {
    forall t {:trigger Lookup(postings, t)} ensures Lookup(postings, t) == PostingsOf(docs + [d], t) {
      PostingsGrow(docs, d, t);
    }
  }

  method AddDocument(docs: seq<Document>, d: Document, postings0: map<Term, seq<Posting>>)
    returns (postings: map<Term, seq<Posting>>)
    requires Indexed(docs, postings0)
    ensures Indexed(docs + [d], postings)
  {
    postings := postings0;
    var counts := multiset(d);
    var rest := set t | t in d;
    while rest != {}
      invariant forall t | t in rest :: t in d
      invariant PartlyIndexed(docs, d, rest, postings)
      decreases |rest|
    {
      var term :| term in rest;
      var grown := postings[term := Lookup(postings, term) + [Posting(|docs|, counts[term])]];
      TermIndexed(docs, d, rest, postings, term, grown);
      postings := grown;
      rest := rest - {term};
    }
    AllIndexed(docs, d, postings);
  }

  // --------------------------------------------------------------------- search

  function DocumentsIn(postings: seq<Posting>): set<nat> {
    set p | p in postings :: p.document
  }

  /** The scores hold exactly the documents that share one of the terms, each with its direct score. */
  ghost predicate DirectScores(docs: seq<Document>, log1p: real -> real, terms: set<Term>, scores: map<nat, real>)
    requires Average(docs) > 0.0
  {
    && (forall i {:trigger i in scores} :: i in scores <==> 0 <= i < |docs| && Shares(docs[i], terms))
    && (forall i {:trigger i in scores} | i in scores && i < |docs| :: scores[i] == Score(docs, log1p, i, terms))
  }

  /** One term's postings added to the scores `base`, each with its weight. */
  ghost predicate Accumulated(base: map<nat, real>, posting: seq<Posting>, weight: Posting -> real, scores: map<nat, real>) {
    && scores.Keys == base.Keys + DocumentsIn(posting)
    && (forall p {:trigger p in posting} | p in posting ::
          scores[p.document] == (if p.document in base then base[p.document] else 0.0) + weight(p))
    && (forall i {:trigger scores[i]} | i in base && i !in DocumentsIn(posting) :: scores[i] == base[i])
  }

  ghost predicate TermAdded(docs: seq<Document>, log1p: real -> real, t: Term, base: map<nat, real>, added: set<nat>, scores: map<nat, real>)
    requires Average(docs) > 0.0
  {
    && scores.Keys == base.Keys + added
    && (forall i {:trigger i in scores} | i in scores && i < |docs| ::
          scores[i] == (if i in base then base[i] else 0.0) + (if i in added then Contribution(docs, log1p, i, t) else 0.0))
  }

  lemma {:induction false} NoSharedTermNoScore(docs: seq<Document>, log1p: real -> real, i: nat, terms: set<Term>)
    requires i < |docs| && Average(docs) > 0.0 && !Shares(docs[i], terms)
    ensures Score(docs, log1p, i, terms) == 0.0
  {
    if terms != {} {
      var t :| t in terms;
      ScoreAnyOrder(docs, log1p, i, terms, t);
      assert Frequency(docs[i], t) == 0;
      assert forall u | u in terms - {t} :: u in terms;
      NoSharedTermNoScore(docs, log1p, i, terms - {t});
    }
  }

  lemma PostingDocuments(docs: seq<Document>, t: Term)
    ensures forall i {:trigger i in DocumentsIn(PostingsOf(docs, t))} ::
              i in DocumentsIn(PostingsOf(docs, t)) <==> 0 <= i < |docs| && Frequency(docs[i], t) > 0
  {
    PostingsSound(docs, t);
    forall i ensures i in DocumentsIn(PostingsOf(docs, t)) <==> 0 <= i < |docs| && Frequency(docs[i], t) > 0 {
      if 0 <= i < |docs| && Frequency(docs[i], t) > 0 {
        PostingsComplete(docs, t, i);
      }
      if p :| p in PostingsOf(docs, t) && p.document == i {
        assert EntryOk(docs, t, p);
      }
    }
  }

  lemma TermDone(docs: seq<Document>, log1p: real -> real, terms: set<Term>, t: Term, base: map<nat, real>, scores: map<nat, real>)
    requires Average(docs) > 0.0 && t !in terms && DirectScores(docs, log1p, terms, base)
    requires TermAdded(docs, log1p, t, base, DocumentsIn(PostingsOf(docs, t)), scores)
    ensures DirectScores(docs, log1p, terms + {t}, scores)
  {
    PostingDocuments(docs, t);
    var added := DocumentsIn(PostingsOf(docs, t));
    forall i ensures i in scores <==> 0 <= i < |docs| && Shares(docs[i], terms + {t}) {
      assert i in scores <==> i in base || i in added;
      assert 0 <= i < |docs| ==> (Shares(docs[i], terms + {t}) <==> Shares(docs[i], terms) || Frequency(docs[i], t) > 0);
    }
    forall i | i in scores && i < |docs| ensures scores[i] == Score(docs, log1p, i, terms + {t}) {
      ScoreAnyOrder(docs, log1p, i, terms + {t}, t);
      assert terms + {t} - {t} == terms;
      if i !in base { NoSharedTermNoScore(docs, log1p, i, terms); }
    }
  }

  lemma AverageFacts(docs: seq<Document>)
    ensures Average(docs) >= 0.0
    ensures Average(docs) == 0.0 <==> TotalLength(docs) == 0
  {
    var n := (if docs == [] then 1 else |docs|) as real;
    assert Average(docs) * n == TotalLength(docs) as real;
  }

  lemma {:induction false} NoTokensNoCandidates(docs: seq<Document>, terms: set<Term>)
    requires TotalLength(docs) == 0
    ensures Candidates(docs, terms) == []
  {
    if docs != [] {
      assert docs[|docs| - 1] == [];
      NoTokensNoCandidates(docs[..|docs| - 1], terms);
    }
  }

  /** The direct search: every candidate scored from its own counts, ranked, and cut. */
  ghost function DirectSearch(docs: seq<Document>, log1p: real -> real, query: seq<Term>, k: nat): seq<nat> {
    var terms := set t | t in query;
    if Average(docs) <= 0.0 then []
    else
      CandidatesScored(docs, log1p, terms);
      Take(Sorted(ScoreTable(docs, log1p, terms), Candidates(docs, terms)), k)
  }

  ghost function ScoreTable(docs: seq<Document>, log1p: real -> real, terms: set<Term>): map<nat, real>
    requires Average(docs) > 0.0
  {
    map i: nat | i < |docs| && Shares(docs[i], terms) :: Score(docs, log1p, i, terms)
  }

  lemma CandidatesScored(docs: seq<Document>, log1p: real -> real, terms: set<Term>)
    requires Average(docs) > 0.0
    ensures Scored(ScoreTable(docs, log1p, terms), Candidates(docs, terms))
  {
  }

  /** The candidates that hold a score, by position. */
  function ScoredPositions(count: nat, scores: map<nat, real>): (r: seq<nat>)
    ensures Scored(scores, r)
  {
    if count == 0 then [] else ScoredPositions(count - 1, scores) + if count - 1 in scores then [count - 1] else []
  }

  lemma {:induction false} PositionsAreCandidates(docs: seq<Document>, terms: set<Term>, scores: map<nat, real>)
    requires forall i | 0 <= i < |docs| :: i in scores <==> Shares(docs[i], terms)
    ensures ScoredPositions(|docs|, scores) == Candidates(docs, terms)
  {
    if docs != [] {
      assert forall i | 0 <= i < |docs| - 1 :: docs[..|docs| - 1][i] == docs[i];
      PositionsAreCandidates(docs[..|docs| - 1], terms, scores);
    }
  }

  class Bm25Index {
    const documents: seq<Document>
    var postings: map<Term, seq<Posting>>
    var lengths: seq<nat>
    var average: real

    ghost predicate Valid()
      reads this
    {
      && Indexed(documents, postings)
      && |lengths| == |documents| && (forall i | 0 <= i < |documents| :: lengths[i] == |documents[i]|)
      && average == Average(documents)
    }

    constructor (docs: seq<Document>)
      ensures Valid() && documents == docs
    {
      var p, l := BuildPostings(docs);
      documents := docs;
      postings := p;
      lengths := l;
      average := Average(docs);
    }

    /** The weight of a posting, from the index's own tables. */
    function PostingWeight(idf: real): (Posting -> real)
      reads this
    {
      var l, a := lengths, average;
      (p: Posting) => if p.frequency > 0 && p.document < |l| && a > 0.0 then Weight(idf, p.frequency, l[p.document], a) else 0.0
    }

    method AddTerm(base: map<nat, real>, term: Term, log1p: real -> real) returns (scores: map<nat, real>)
      requires Valid() && average > 0.0
      ensures TermAdded(documents, log1p, term, base, DocumentsIn(PostingsOf(documents, term)), scores)
    {
      var posting := Lookup(postings, term);
      var idf := Idf(|documents|, |posting|, log1p);
      var weight := PostingWeight(idf);
      forall a, b | 0 <= a < b < |posting| ensures posting[a].document != posting[b].document {
        PostingsOrdered(documents, term, a, b);
      }
      scores := Accumulate(base, posting, weight);
      WeightsAreContributions(documents, log1p, term, base, weight, scores);
    }

    method ScoreTerms(terms: set<Term>, log1p: real -> real) returns (scores: map<nat, real>)
      requires Valid() && average > 0.0
      ensures DirectScores(documents, log1p, terms, scores)
    {
      scores := map[];
      var rest := terms;
      while rest != {}
        invariant rest <= terms && DirectScores(documents, log1p, terms - rest, scores)
        decreases |rest|
      {
        var term :| term in rest;
        ghost var base := scores;
        scores := AddTerm(scores, term, log1p);
        TermDone(documents, log1p, terms - rest, term, base, scores);
        assert terms - rest + {term} == terms - (rest - {term});
        rest := rest - {term};
      }
      assert terms - rest == terms;
    }

    /** Searching through the postings returns what scoring every document directly returns. */
    method Search(query: seq<Term>, k: nat, log1p: real -> real) returns (hits: seq<nat>)
      requires Valid()
      ensures hits == DirectSearch(documents, log1p, query, k)
    {
      AverageFacts(documents);
      if average == 0.0 {
        return [];
      }
      var terms := set t | t in query;
      var scores := ScoreTerms(terms, log1p);
      RankedAlike(documents, log1p, terms, scores);
      var order := Sorted(scores, ScoredPositions(|documents|, scores));
      hits := Take(order, k);
    }
  }

  method Accumulate(base: map<nat, real>, posting: seq<Posting>, weight: Posting -> real) returns (scores: map<nat, real>)
    requires forall a, b | 0 <= a < b < |posting| :: posting[a].document != posting[b].document
    ensures Accumulated(base, posting, weight, scores)
  {
    scores := base;
    for j := 0 to |posting|
      invariant Accumulated(base, posting[..j], weight, scores)
    {
      var p := posting[j];
      ghost var before := scores;
      scores := scores[p.document := (if p.document in scores then scores[p.document] else 0.0) + weight(p)];
      PostingAdded(base, posting[..j], weight, before, p, scores);
      assert posting[..j + 1] == posting[..j] + [p];
    }
    assert posting[..|posting|] == posting;
  }

  lemma PostingAdded(
    base: map<nat, real>, posting: seq<Posting>, weight: Posting -> real, before: map<nat, real>, p: Posting, scores: map<nat, real>)
    requires Accumulated(base, posting, weight, before) && p.document !in DocumentsIn(posting)
    requires scores == before[p.document := (if p.document in before then before[p.document] else 0.0) + weight(p)]
    ensures Accumulated(base, posting + [p], weight, scores)
  {
    assert DocumentsIn(posting + [p]) == DocumentsIn(posting) + {p.document};
  }

  lemma WeightsAreContributions(
    docs: seq<Document>, log1p: real -> real, t: Term, base: map<nat, real>, weight: Posting -> real, scores: map<nat, real>)
    requires Average(docs) > 0.0 && Accumulated(base, PostingsOf(docs, t), weight, scores)
    requires forall p: Posting {:trigger weight(p)} | p.frequency > 0 && p.document < |docs| ::
               weight(p) == Weight(Idf(|docs|, |PostingsOf(docs, t)|, log1p), p.frequency, |docs[p.document]|, Average(docs))
    ensures TermAdded(docs, log1p, t, base, DocumentsIn(PostingsOf(docs, t)), scores)
  {
    PostingsSound(docs, t);
    forall i | i in scores && i < |docs| && i in DocumentsIn(PostingsOf(docs, t))
      ensures scores[i] == (if i in base then base[i] else 0.0) + Contribution(docs, log1p, i, t)
    {
      var p :| p in PostingsOf(docs, t) && p.document == i;
      assert EntryOk(docs, t, p);
    }
  }

  lemma RankedAlike(docs: seq<Document>, log1p: real -> real, terms: set<Term>, scores: map<nat, real>)
    requires Average(docs) > 0.0 && DirectScores(docs, log1p, terms, scores)
    ensures scores == ScoreTable(docs, log1p, terms)
    ensures ScoredPositions(|docs|, scores) == Candidates(docs, terms)
    ensures Scored(scores, Candidates(docs, terms))
  {
    PositionsAreCandidates(docs, terms, scores);
    CandidatesScored(docs, log1p, terms);
  }

  lemma {:induction false} CandidatesDistinct(docs: seq<Document>, terms: set<Term>)
    ensures Distinct(Candidates(docs, terms))
  {
    if docs != [] {
      var before := Candidates(docs[..|docs| - 1], terms);
      CandidatesDistinct(docs[..|docs| - 1], terms);
      forall a | 0 <= a < |before| ensures before[a] < |docs| - 1 {
        assert before[a] in before;
      }
    }
  }

  lemma {:induction false} CandidatesComplete(docs: seq<Document>, terms: set<Term>, i: nat)
    requires i < |docs| && Shares(docs[i], terms)
    ensures i in Candidates(docs, terms)
  {
    if i < |docs| - 1 {
      CandidatesComplete(docs[..|docs| - 1], terms, i);
    }
  }

  /**
   The hits are the best documents that share a query term: every candidate that is not a
   hit ranks after all of them, and none is left out while there is room.
   */
  lemma HitsAreBest(docs: seq<Document>, log1p: real -> real, query: seq<Term>, k: nat)
    requires Average(docs) > 0.0
    ensures var terms := set t | t in query;
            var hits := DirectSearch(docs, log1p, query, k);
            var scores := ScoreTable(docs, log1p, terms);
            && Scored(scores, hits) && Ranked(scores, hits)
            && (forall i | i in scores && i !in hits ::
                 |hits| == k && forall a | 0 <= a < |hits| :: Before(scores, hits[a], i))
  {
    var terms := set t | t in query;
    var scores := ScoreTable(docs, log1p, terms);
    var candidates := Candidates(docs, terms);
    CandidatesScored(docs, log1p, terms);
    CandidatesDistinct(docs, terms);
    forall i | i in scores ensures i in candidates {
      CandidatesComplete(docs, terms, i);
    }
    SortedRanked(scores, candidates);
    BestFirst(scores, candidates, Sorted(scores, candidates), k);
  }

  lemma BestFirst(scores: map<nat, real>, candidates: seq<nat>, order: seq<nat>, k: nat)
    requires Scored(scores, candidates) && Scored(scores, order) && Ranked(scores, order)
    requires multiset(order) == multiset(candidates) && forall i | i in scores :: i in candidates
    ensures var hits := Take(order, k);
            && Scored(scores, hits) && Ranked(scores, hits)
            && (forall i | i in scores && i !in hits ::
                 |hits| == k && forall a | 0 <= a < |hits| :: Before(scores, hits[a], i))
  {
    var hits := Take(order, k);
    forall i | i in scores && i !in hits
      ensures |hits| == k && forall a | 0 <= a < |hits| :: Before(scores, hits[a], i)
    {
      assert i in multiset(candidates);
      assert i in multiset(order);
      var b :| 0 <= b < |order| && order[b] == i;
    }
  }
}
