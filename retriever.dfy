/**
  The ranking part of `retrieve` in search_engine.py: collect the documents
  that carry a query word, score each with BM25, keep the positive scores,
  sort them by score from high to low (a stable sort) and cut the list with
  Python's `[:top_n]`.
 */
module Retriever {
  import opened Tokenizer
  import opened IndexBuilder
  import opened Scorer

  /** One `(doc_id, score)` pair of `doc_scores`. */
  datatype Hit = Hit(doc: DocId, score: real)

  /** The candidate-collection loop: the union of the posting keys of the
      query words the index knows. */
  method CollectCandidates(words: seq<Word>, s: Snapshot) returns (candidates: set<DocId>)
    ensures forall d :: d in candidates <==> Matches(words, d, s)
  {
    candidates := {};
    for i := 0 to |words|
      invariant forall d :: d in candidates <==> Matches(words[..i], d, s)
    {
      var word := words[i];
      assert forall j :: 0 <= j < i ==> words[..i + 1][j] == words[..i][j];
      if word in s.invertedIndex {
        candidates := candidates + s.invertedIndex[word].Keys;
      }
      forall d ensures d in candidates <==> Matches(words[..i + 1], d, s) {
        if Matches(words[..i + 1], d, s) {
          var j :| 0 <= j < i + 1 && words[..i + 1][j] in s.invertedIndex && d in s.invertedIndex[words[..i + 1][j]];
          if j < i {
            assert words[..i][j] == words[j];
          }
        }
        if d in candidates && !(word in s.invertedIndex && d in s.invertedIndex[word]) {
          var j :| 0 <= j < i && words[..i][j] in s.invertedIndex && d in s.invertedIndex[words[..i][j]];
          assert words[..i + 1][j] == words[..i][j];
        }
        if word in s.invertedIndex && d in s.invertedIndex[word] {
          assert words[..i + 1][i] == word;
        }
      }
    }
    assert words[..|words|] == words;
  }

  /** The document ids of a list of hits are pairwise different. */
  ghost predicate DistinctDocs(hits: seq<Hit>) {
    forall i, j :: 0 <= i < j < |hits| ==> hits[i].doc != hits[j].doc
  }

  /** Every hit carries the BM25 score of its document, and that score is positive. */
  ghost predicate Scored(hits: seq<Hit>, words: seq<Word>, s: Snapshot, ln: Ln)
    requires WellFormed(s)
  {
    forall i :: 0 <= i < |hits| ==> hits[i].score == Bm25(words, hits[i].doc, s, ln) && hits[i].score > 0.0
  }

  /** The scoring loop over the candidate set, in the set's iteration order:
      every candidate with a positive score becomes one hit, and nothing else does. */
  method ScoreCandidates(words: seq<Word>, candidates: set<DocId>, s: Snapshot, ln: Ln) returns (hits: seq<Hit>)
    requires WellFormed(s)
    ensures Scored(hits, words, s, ln)
    ensures forall i :: 0 <= i < |hits| ==> hits[i].doc in candidates
    ensures forall d :: d in candidates && Bm25(words, d, s, ln) > 0.0 ==> exists i :: 0 <= i < |hits| && hits[i].doc == d
    ensures DistinctDocs(hits)
  {
    hits := [];
    var rest := candidates;
    while exists d :: d in rest
      invariant rest <= candidates
      invariant Scored(hits, words, s, ln)
      invariant forall i :: 0 <= i < |hits| ==> hits[i].doc in candidates - rest
      invariant forall d :: d in candidates - rest && Bm25(words, d, s, ln) > 0.0 ==>
                             exists i :: 0 <= i < |hits| && hits[i].doc == d
      invariant DistinctDocs(hits)
      decreases rest
    {
      var d :| d in rest;
      var score := Bm25Score(words, d, s, ln);
      ghost var before := hits;
      if score > 0.0 {
        hits := hits + [Hit(d, score)];
        assert hits[|hits| - 1].doc == d;
      }
      assert forall i :: 0 <= i < |before| ==> hits[i] == before[i];
      rest := rest - {d};
    }
  }

  /** Non-increasing scores. */
  ghost predicate SortedByScore(hits: seq<Hit>) {
    forall i, j :: 0 <= i < j < |hits| ==> hits[i].score >= hits[j].score
  }

  /** Insert `h` into a list sorted by non-increasing score, after every hit
      whose score is at least `h`'s, so that equal scores keep their order. */
  function InsertByScore(h: Hit, hits: seq<Hit>): (r: seq<Hit>)
    ensures multiset(r) == multiset(hits) + multiset{h}
  {
    if |hits| == 0 then [h]
    else if hits[0].score >= h.score then
      assert hits == [hits[0]] + hits[1..];
      [hits[0]] + InsertByScore(h, hits[1..])
    else [h] + hits
  }

  /** Insertion keeps the list sorted. */
  lemma {:induction false} InsertKeepsSorted(h: Hit, hits: seq<Hit>)
    requires SortedByScore(hits)
    ensures SortedByScore(InsertByScore(h, hits))
  {
    if |hits| > 0 && hits[0].score >= h.score {
      var rest := InsertByScore(h, hits[1..]);
      InsertKeepsSorted(h, hits[1..]);
      forall k | 0 <= k < |rest| ensures hits[0].score >= rest[k].score {
        assert rest[k] in multiset(rest);
      }
    }
  }

  /** `doc_scores.sort(key=lambda x: x[1], reverse=True)`: Python's stable
      sort by descending score, as an insertion sort. */
  function SortByScore(hits: seq<Hit>): (r: seq<Hit>)
    ensures multiset(r) == multiset(hits)
    ensures SortedByScore(r)
  {
    if |hits| == 0 then []
    else
      var init, last := hits[..|hits| - 1], hits[|hits| - 1];
      assert hits == init + [last];
      InsertKeepsSorted(last, SortByScore(init));
      InsertByScore(last, SortByScore(init))
  }

  /** Python's `xs[:n]`: the first `n` elements, or for a negative `n` all
      but the last `-n`. */
  function Take<T>(xs: seq<T>, n: int): (r: seq<T>)
    ensures r <= xs
    ensures n >= 0 ==> |r| == if n < |xs| then n else |xs|
    ensures n < 0 ==> |r| == if |xs| + n > 0 then |xs| + n else 0
  {
    if n >= 0 then
      if n < |xs| then xs[..n] else xs
    else
      if |xs| + n > 0 then xs[..|xs| + n] else []
  }

  /** A value occurring at two positions is counted at least twice. */
  lemma RepeatCounted(hits: seq<Hit>, i: int, j: int)
    requires 0 <= i < j < |hits| && hits[i] == hits[j]
    ensures multiset(hits)[hits[i]] >= 2
  {
    assert hits == hits[..j] + [hits[j]] + hits[j + 1..];
    assert hits[i] == hits[..j][i];
  }

  /** Pairwise different values are each counted once. */
  lemma {:induction false} DistinctCountedOnce(hits: seq<Hit>)
    requires forall i, j :: 0 <= i < j < |hits| ==> hits[i] != hits[j]
    ensures forall h :: multiset(hits)[h] <= 1
  {
    if |hits| > 0 {
      var init, last := hits[..|hits| - 1], hits[|hits| - 1];
      assert hits == init + [last];
      DistinctCountedOnce(init);
    }
  }

  /** Reordering scored hits keeps their documents pairwise different. */
  lemma PermutationKeepsDistinct(hits: seq<Hit>, r: seq<Hit>, words: seq<Word>, s: Snapshot, ln: Ln)
    requires WellFormed(s) && Scored(hits, words, s, ln) && DistinctDocs(hits)
    requires multiset(r) <= multiset(hits)
    ensures Scored(r, words, s, ln) && DistinctDocs(r)
  {
    forall i | 0 <= i < |r| ensures r[i].score == Bm25(words, r[i].doc, s, ln) && r[i].score > 0.0 {
      assert r[i] in multiset(hits);
    }
    DistinctCountedOnce(hits);
    forall i, j | 0 <= i < j < |r| ensures r[i].doc != r[j].doc {
      if r[i] == r[j] {
        RepeatCounted(r, i, j);
      }
    }
  }

  /** What `retrieve` promises of its result: every hit is a matching
      document with its positive BM25 score, the hits are best first with no
      document twice, at most `top_n` of them for a non-negative `top_n`, and
      a positively scored matching document is left out only when the list is
      full and it scores no higher than every hit kept. */
  ghost predicate IsRanking(results: seq<Hit>, words: seq<Word>, s: Snapshot, topN: int, ln: Ln)
    requires WellFormed(s)
  {
    && (forall i :: 0 <= i < |results| ==> Matches(words, results[i].doc, s))
    && Scored(results, words, s, ln)
    && SortedByScore(results)
    && DistinctDocs(results)
    && (topN >= 0 ==> |results| <= topN)
    && (forall d :: Matches(words, d, s) && Bm25(words, d, s, ln) > 0.0 && (forall i :: 0 <= i < |results| ==> results[i].doc != d) ==>
          (topN >= 0 ==> |results| == topN) && (forall i :: 0 <= i < |results| ==> results[i].score >= Bm25(words, d, s, ln)))
  }

  /** The hits that survive the sort and the cut are matching, scored and
      pairwise different, and come best first. */
  lemma SortedCutKeepsHits(words: seq<Word>, hits: seq<Hit>, s: Snapshot, topN: int, ln: Ln)
    requires WellFormed(s)
    requires forall i :: 0 <= i < |hits| ==> Matches(words, hits[i].doc, s)
    requires Scored(hits, words, s, ln) && DistinctDocs(hits)
    ensures var results := Take(SortByScore(hits), topN);
            && (forall i :: 0 <= i < |results| ==> Matches(words, results[i].doc, s))
            && Scored(results, words, s, ln) && DistinctDocs(results) && SortedByScore(results)
  {
    var sorted := SortByScore(hits);
    var results := Take(sorted, topN);
    PermutationKeepsDistinct(hits, sorted, words, s, ln);
    assert sorted == results + sorted[|results|..];
    PermutationKeepsDistinct(sorted, results, words, s, ln);
    forall i | 0 <= i < |results| ensures Matches(words, results[i].doc, s) {
      assert results[i] in multiset(hits);
    }
    forall i, j | 0 <= i < j < |results| ensures results[i].score >= results[j].score {
      assert results[i] == sorted[i] && results[j] == sorted[j];
    }
  }

  /** A positively scored hit the cut leaves out is below every kept hit,
      and then a non-negative cut is full. */
  lemma SortedCutKeepsBest(hits: seq<Hit>, d: DocId, topN: int)
    requires exists k :: 0 <= k < |hits| && hits[k].doc == d
    requires forall i :: 0 <= i < |Take(SortByScore(hits), topN)| ==> Take(SortByScore(hits), topN)[i].doc != d
    ensures exists k :: 0 <= k < |hits| && hits[k].doc == d &&
              var results := Take(SortByScore(hits), topN);
              && (topN >= 0 ==> |results| == topN)
              && (forall i :: 0 <= i < |results| ==> results[i].score >= hits[k].score)
  {
    var sorted := SortByScore(hits);
    var results := Take(sorted, topN);
    var k :| 0 <= k < |hits| && hits[k].doc == d;
    assert hits[k] in multiset(sorted);
    var m :| 0 <= m < |sorted| && sorted[m] == hits[k];
    OmittedScoreLower(sorted, topN, m);
  }

  /** Sorting the scored candidates and cutting the list yields a ranking. */
  lemma SortedCutIsRanking(words: seq<Word>, candidates: set<DocId>, hits: seq<Hit>, s: Snapshot, topN: int, ln: Ln)
    requires WellFormed(s)
    requires forall d :: d in candidates <==> Matches(words, d, s)
    requires Scored(hits, words, s, ln) && DistinctDocs(hits)
    requires forall i :: 0 <= i < |hits| ==> hits[i].doc in candidates
    requires forall d :: d in candidates && Bm25(words, d, s, ln) > 0.0 ==> exists i :: 0 <= i < |hits| && hits[i].doc == d
    ensures IsRanking(Take(SortByScore(hits), topN), words, s, topN, ln)
  {
    SortedCutKeepsHits(words, hits, s, topN, ln);
    SortedCutLeavesOutLower(words, candidates, hits, s, topN, ln);
  }

  /** Every positively scored matching document the cut leaves out scores
      no higher than every hit kept, and then a non-negative cut is full. */
  lemma SortedCutLeavesOutLower(words: seq<Word>, candidates: set<DocId>, hits: seq<Hit>, s: Snapshot, topN: int, ln: Ln)
    requires WellFormed(s)
    requires forall d :: d in candidates <==> Matches(words, d, s)
    requires Scored(hits, words, s, ln)
    requires forall d :: d in candidates && Bm25(words, d, s, ln) > 0.0 ==> exists i :: 0 <= i < |hits| && hits[i].doc == d
    ensures var results := Take(SortByScore(hits), topN);
      forall d :: Matches(words, d, s) && Bm25(words, d, s, ln) > 0.0 && (forall i :: 0 <= i < |results| ==> results[i].doc != d) ==>
        (topN >= 0 ==> |results| == topN) && (forall i :: 0 <= i < |results| ==> results[i].score >= Bm25(words, d, s, ln))
  {
    var results := Take(SortByScore(hits), topN);
    forall d | Matches(words, d, s) && Bm25(words, d, s, ln) > 0.0 && (forall i :: 0 <= i < |results| ==> results[i].doc != d)
      ensures (topN >= 0 ==> |results| == topN) && (forall i :: 0 <= i < |results| ==> results[i].score >= Bm25(words, d, s, ln))
    {
      SortedCutKeepsBest(hits, d, topN);
    }
  }

  /** The ranking part of `retrieve`: no query word gives no result, and
      neither does a query no document matches; otherwise the positive-scored
      candidates, best first, cut to `top_n`. */
  method Rank(words: seq<Word>, s: Snapshot, topN: int, ln: Ln) returns (results: seq<Hit>)
    requires WellFormed(s)
    ensures |words| == 0 ==> results == []
    ensures IsRanking(results, words, s, topN, ln)
  {
    if |words| == 0 {
      return [];
    }
    var candidates := CollectCandidates(words, s);
    if candidates == {} {
      return [];
    }
    var hits := ScoreCandidates(words, candidates, s, ln);
    var sorted := SortByScore(hits);
    results := Take(sorted, topN);
    SortedCutIsRanking(words, candidates, hits, s, topN, ln);
  }

  /** A hit the cut leaves out scores no higher than any hit it keeps, and a
      non-negative cut that leaves something out keeps exactly `top_n` hits. */
  lemma OmittedScoreLower(sorted: seq<Hit>, n: int, m: int)
    requires SortedByScore(sorted) && 0 <= m < |sorted| && m >= |Take(sorted, n)|
    ensures n >= 0 ==> |Take(sorted, n)| == n
    ensures forall i :: 0 <= i < |Take(sorted, n)| ==> Take(sorted, n)[i].score >= sorted[m].score
  {
    var r := Take(sorted, n);
    forall i | 0 <= i < |r| ensures r[i].score >= sorted[m].score {
      assert r[i] == sorted[i];
    }
  }

  /** With a logarithm positive above 1, every matching document scores
      above 0, so the `score > 0` filter drops no candidate. */
  lemma CandidatesScorePositive(words: seq<Word>, d: DocId, s: Snapshot, ln: Ln)
    requires WellFormed(s) && LogPositive(ln) && Matches(words, d, s)
    ensures Bm25(words, d, s, ln) > 0.0
  {
    Bm25Sign(words, d, s, ln);
  }
}
