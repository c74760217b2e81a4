/**
  `bm25_score` of search_engine.py: the BM25 score of one document for a
  list of query words, summed word by word over the words the index knows.
  Floating point becomes `real`; `math.log` is a parameter `ln` about which
  only its sign above 1 is ever assumed.
 */
module Scorer {
  import opened Tokenizer
  import opened IndexBuilder

  /** The keyword defaults `k1=1.2, b=0.75`, the only values any caller passes. */
  const K1: real := 1.2
  const B: real := 0.75

  /** The natural logarithm, left uninterpreted. */
  type Ln = real -> real

  /** What `math.log` satisfies and the sign lemmas rely on: it is positive above 1. */
  ghost predicate LogPositive(ln: Ln) {
    forall x :: x > 1.0 ==> ln(x) > 0.0
  }

  /** `inverted_index[word].get(doc_id, 0)` */
  function TermFrequency(s: Snapshot, w: Word, d: DocId): nat
    requires w in s.invertedIndex
  {
    if d in s.invertedIndex[w] then s.invertedIndex[w][d] else 0
  }

  /** The argument of the logarithm in the IDF, `(N - df + 0.5) / (df + 0.5) + 1`:
      above 1 whenever the document frequency does not exceed the document count. */
  function IdfArgument(total: nat, df: nat): (r: real)
    ensures df <= total ==> r > 1.0
  {
    (total as real - df as real + 0.5) / (df as real + 0.5) + 1.0
  }

  /** The TF part `(tf * (k1 + 1)) / (tf + k1 * (1 - b + b * doc_len / avg_len))`:
      defined for a positive average, never negative, and zero exactly when the
      word does not occur in the document. */
  function TfPart(tf: nat, docLen: nat, avg: real): (r: real)
    requires avg > 0.0
    ensures r >= 0.0
    ensures r > 0.0 <==> tf > 0
  {
    var norm := 1.0 - B + B * docLen as real / avg;
    assert B * docLen as real / avg >= 0.0;
    var num, den := tf as real * (K1 + 1.0), tf as real + K1 * norm;
    assert den > 0.0;
    assert num / den * den == num;
    num / den
  }

  /** The contribution `idf * tf_part` of one indexed query word to the
      score of a recorded document. */
  function TermScore(s: Snapshot, w: Word, d: DocId, ln: Ln): real
    requires WellFormed(s) && w in s.invertedIndex && d in s.docLengths
  {
    AveragePositive(s, d);
    ln(IdfArgument(s.totalDocs, s.wordDf[w])) * TfPart(TermFrequency(s, w, d), s.docLengths[d], s.avgDocLength)
  }

  /** The loop's sum over the query words, in order, skipping the words
      missing from the inverted index. */
  function SumTerms(words: seq<Word>, d: DocId, s: Snapshot, ln: Ln): real
    requires WellFormed(s) && d in s.docLengths
  {
    if |words| == 0 then 0.0
    else
      var init, last := words[..|words| - 1], words[|words| - 1];
      SumTerms(init, d, s, ln) + (if last in s.invertedIndex then TermScore(s, last, d, ln) else 0.0)
  }

  /** `bm25_score(query_words, doc_id, index_data)`: 0 for a document with no
      recorded (or a zero) length, otherwise the sum of the term scores. */
  function Bm25(words: seq<Word>, d: DocId, s: Snapshot, ln: Ln): (r: real)
    requires WellFormed(s)
    ensures d !in s.docLengths ==> r == 0.0
  {
    if d !in s.docLengths || s.docLengths[d] == 0 then 0.0 else SumTerms(words, d, s, ln)
  }

  /** The scoring loop of `bm25_score`. */
  method Bm25Score(queryWords: seq<Word>, docId: DocId, s: Snapshot, ln: Ln) returns (score: real)
    requires WellFormed(s)
    ensures score == Bm25(queryWords, docId, s, ln)
  {
    score := 0.0;
    var docLen := if docId in s.docLengths then s.docLengths[docId] else 0;
    if docLen == 0 {
      return 0.0;
    }
    for i := 0 to |queryWords|
      invariant score == SumTerms(queryWords[..i], docId, s, ln)
    {
      var word := queryWords[i];
      assert queryWords[..i + 1][..i] == queryWords[..i];
      if word !in s.invertedIndex {
        continue;
      }
      var tf := TermFrequency(s, word, docId);
      var df := s.wordDf[word];
      AveragePositive(s, docId);
      var idf := ln(IdfArgument(s.totalDocs, df));
      var tfPart := TfPart(tf, docLen, s.avgDocLength);
      score := score + idf * tfPart;
    }
    assert queryWords[..|queryWords|] == queryWords;
  }

  /** The score is a sum over the query words in order: scoring a
      concatenation adds the scores of its parts. */
  lemma {:induction false} SumTermsAppend(a: seq<Word>, b: seq<Word>, d: DocId, s: Snapshot, ln: Ln)
    requires WellFormed(s) && d in s.docLengths
    ensures SumTerms(a + b, d, s, ln) == SumTerms(a, d, s, ln) + SumTerms(b, d, s, ln)
  {
    if |b| == 0 {
      assert a + b == a;
    } else {
      var init, last := b[..|b| - 1], b[|b| - 1];
      assert (a + b)[..|a + b| - 1] == a + init;
      assert (a + b)[|a + b| - 1] == last;
      SumTermsAppend(a, init, d, s, ln);
    }
  }

  lemma Bm25Append(a: seq<Word>, b: seq<Word>, d: DocId, s: Snapshot, ln: Ln)
    requires WellFormed(s)
    ensures Bm25(a + b, d, s, ln) == Bm25(a, d, s, ln) + Bm25(b, d, s, ln)
  {
    if d in s.docLengths {
      SumTermsAppend(a, b, d, s, ln);
    }
  }

  /** The query words the inverted index knows, in order. */
  function KnownWords(words: seq<Word>, s: Snapshot): (r: seq<Word>)
    ensures forall i :: 0 <= i < |r| ==> r[i] in s.invertedIndex
    ensures forall w :: w in r <==> w in words && w in s.invertedIndex
  {
    if |words| == 0 then []
    else
      var init, last := words[..|words| - 1], words[|words| - 1];
      assert words == init + [last];
      KnownWords(init, s) + (if last in s.invertedIndex then [last] else [])
  }

  /** Query words missing from the inverted index contribute nothing: the
      score is the same with only the known words. */
  lemma {:induction false} Bm25SkipsUnknownWords(words: seq<Word>, d: DocId, s: Snapshot, ln: Ln)
    requires WellFormed(s)
    ensures Bm25(words, d, s, ln) == Bm25(KnownWords(words, s), d, s, ln)
  {
    if |words| > 0 && d in s.docLengths {
      var init, last := words[..|words| - 1], words[|words| - 1];
      Bm25SkipsUnknownWords(init, d, s, ln);
      var known := KnownWords(init, s);
      var tail := if last in s.invertedIndex then [last] else [];
      SumTermsAppend(known, tail, d, s, ln);
      if last in s.invertedIndex {
        assert tail[..0] == [];
      }
    }
  }

  /** A query none of whose words the index knows scores 0. */
  lemma {:induction false} Bm25NoKnownWord(words: seq<Word>, d: DocId, s: Snapshot, ln: Ln)
    requires WellFormed(s)
    requires forall i :: 0 <= i < |words| ==> words[i] !in s.invertedIndex
    ensures Bm25(words, d, s, ln) == 0.0
  {
    if |words| > 0 && d in s.docLengths {
      Bm25NoKnownWord(words[..|words| - 1], d, s, ln);
    }
  }

  /** With a logarithm positive above 1, the term score of a recorded
      document is never negative, and positive exactly when the document
      carries the word. */
  lemma TermScoreSign(s: Snapshot, w: Word, d: DocId, ln: Ln)
    requires WellFormed(s) && w in s.invertedIndex && d in s.docLengths && LogPositive(ln)
    ensures TermScore(s, w, d, ln) >= 0.0
    ensures TermScore(s, w, d, ln) > 0.0 <==> d in s.invertedIndex[w]
  {
    DfAtMostTotal(s, w);
    AveragePositive(s, d);
    var idf := ln(IdfArgument(s.totalDocs, s.wordDf[w]));
    assert idf > 0.0;
    if d in s.invertedIndex[w] {
      assert s.invertedIndex[w][d] >= 1;
    }
  }

  /** The document carries one of the query words. */
  ghost predicate Matches(words: seq<Word>, d: DocId, s: Snapshot) {
    exists i :: 0 <= i < |words| && words[i] in s.invertedIndex && d in s.invertedIndex[words[i]]
  }

  /** With a logarithm positive above 1, a score is never negative, and it is
      positive exactly when the document carries one of the query words. */
  lemma {:induction false} Bm25Sign(words: seq<Word>, d: DocId, s: Snapshot, ln: Ln)
    requires WellFormed(s) && LogPositive(ln)
    ensures Bm25(words, d, s, ln) >= 0.0
    ensures Bm25(words, d, s, ln) > 0.0 <==> Matches(words, d, s)
  {
    if |words| > 0 {
      var init, last := words[..|words| - 1], words[|words| - 1];
      Bm25Sign(init, d, s, ln);
      if Matches(words, d, s) {
        var i :| 0 <= i < |words| && words[i] in s.invertedIndex && d in s.invertedIndex[words[i]];
        if i < |init| {
          assert init[i] == words[i];
        }
        assert d in s.docLengths by {
          assert s.invertedIndex[words[i]][d] >= 1;
        }
      }
      if d in s.docLengths && last in s.invertedIndex {
        TermScoreSign(s, last, d, ln);
      }
      if Matches(init, d, s) {
        var i :| 0 <= i < |init| && init[i] in s.invertedIndex && d in s.invertedIndex[init[i]];
        assert words[i] == init[i];
      }
    }
  }
}
