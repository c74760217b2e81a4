/**
  The accumulation part of `build_bm25_index` in search_engine.py: for each
  document id in `start..end`, tokenize the extracted title and body, weight
  title words 20 and body words 1, and record the document in the inverted
  index, the document-frequency map and the document-length map.
 */
module IndexBuilder {
  import opened Tokenizer

  type DocId = int

  /** What the HTML extraction yields for one document: the `<title>` text
      and the non-empty `<p>` texts joined by spaces. */
  datatype Page = Page(title: string, body: string)

  /** The build's inputs: the segmenter, the loaded stopword set and the
      extracted pages of the HTML directory; an id whose file is missing has
      no page. */
  datatype Corpus = Corpus(segment: Segmenter, stopwords: set<Word>, pages: map<DocId, Page>)

  /** The five fields of `index_data`. */
  datatype Snapshot = Snapshot(
    invertedIndex: map<Word, map<DocId, nat>>,
    wordDf: map<Word, nat>,
    docLengths: map<DocId, nat>,
    totalDocs: nat,
    avgDocLength: real)

  const TitleWeight: nat := 20
  const BodyWeight: nat := 1

  function Count(ws: seq<Word>, w: Word): nat {
    multiset(ws)[w]
  }

  /** Weighted term frequency of `w`: 20 per title occurrence, 1 per body
      occurrence; positive exactly for the words the page keeps. */
  function Weight(titleWords: seq<Word>, bodyWords: seq<Word>, w: Word): (r: nat)
    ensures r > 0 <==> w in titleWords || w in bodyWords
    ensures r >= Count(titleWords, w) + Count(bodyWords, w)
  {
    TitleWeight * Count(titleWords, w) + BodyWeight * Count(bodyWords, w)
  }

  function TitleWords(c: Corpus, d: DocId): seq<Word>
    requires d in c.pages
  {
    Tokenize(c.segment, c.pages[d].title, c.stopwords)
  }

  function BodyWords(c: Corpus, d: DocId): seq<Word>
    requires d in c.pages
  {
    Tokenize(c.segment, c.pages[d].body, c.stopwords)
  }

  /** A document enters the index iff its file exists and its weighted term
      map is not empty, that is, its title or its body keeps a word. */
  predicate Indexed(c: Corpus, d: DocId) {
    d in c.pages && |TitleWords(c, d)| + |BodyWords(c, d)| > 0
  }

  /** `sum(m.values())` */
  ghost function MapSum(m: map<DocId, nat>): nat
    decreases |m|
  {
    if exists d :: d in m then
      var d :| d in m;
      m[d] + MapSum(m - {d})
    else 0
  }

  /** The sum does not depend on which key is taken out first. */
  lemma {:induction false} MapSumRemove(m: map<DocId, nat>, d: DocId)
    requires d in m
    ensures MapSum(m) == m[d] + MapSum(m - {d})
    decreases |m|
  {
    var e :| e in m && MapSum(m) == m[e] + MapSum(m - {e});
    if e != d {
      MapSumRemove(m - {e}, d);
      MapSumRemove(m - {d}, e);
      assert m - {e} - {d} == m - {d} - {e};
    }
  }

  /** A sum of values that are all at least 1 is at least the number of keys. */
  lemma {:induction false} MapSumAtLeastSize(m: map<DocId, nat>)
    requires forall d :: d in m ==> m[d] >= 1
    ensures MapSum(m) >= |m|
    decreases |m|
  {
    if exists d :: d in m {
      var d :| d in m;
      MapSumRemove(m, d);
      MapSumAtLeastSize(m - {d});
    } else {
      assert m == map[];
    }
  }

  /** `sum(doc_lengths.values()) / total_docs if total_docs else 0` */
  ghost function Average(lengths: map<DocId, nat>): real {
    if |lengths| == 0 then 0.0 else MapSum(lengths) as real / |lengths| as real
  }

  /** What every snapshot produced by the build satisfies: the invariants
      the scorer relies on. */
  ghost predicate WellFormed(s: Snapshot) {
    && s.totalDocs == |s.docLengths|
    && (forall d :: d in s.docLengths ==> s.docLengths[d] >= 1)
    && s.wordDf.Keys == s.invertedIndex.Keys
    && (forall w :: w in s.invertedIndex ==> |s.invertedIndex[w]| >= 1 && s.wordDf[w] == |s.invertedIndex[w]|)
    && (forall w, d {:trigger s.invertedIndex[w][d]} :: w in s.invertedIndex && d in s.invertedIndex[w] ==>
                         d in s.docLengths && s.invertedIndex[w][d] >= 1)
    && s.avgDocLength == Average(s.docLengths)
  }

  /** The length map holds exactly the indexed documents with ids in
      `[lo, hi)`, each with its number of kept words; `total` counts them. */
  ghost predicate LengthsExact(lengths: map<DocId, nat>, total: nat, c: Corpus, lo: int, hi: int) {
    && total == |lengths|
    && (forall d :: d in lengths <==> lo <= d < hi && Indexed(c, d))
    && (forall d :: d in lengths ==> lengths[d] == |TitleWords(c, d)| + |BodyWords(c, d)|)
  }

  /** Each indexed word has a non-empty posting map and its document
      frequency is the size of that map. */
  ghost predicate DfExact(inverted: map<Word, map<DocId, nat>>, df: map<Word, nat>) {
    && df.Keys == inverted.Keys
    && (forall w :: w in inverted ==> |inverted[w]| >= 1 && df[w] == |inverted[w]|)
  }

  /** Every posting names a recorded document and carries the weighted term
      frequency of the word in it. */
  ghost predicate PostingsExact(inverted: map<Word, map<DocId, nat>>, lengths: map<DocId, nat>, c: Corpus) {
    forall w, d {:trigger inverted[w][d]} :: w in inverted && d in inverted[w] ==>
      && d in lengths && Indexed(c, d) && (w in TitleWords(c, d) || w in BodyWords(c, d))
      && inverted[w][d] == Weight(TitleWords(c, d), BodyWords(c, d), w)
  }

  /** Every kept word of every recorded document has its posting. */
  ghost predicate PostingsComplete(inverted: map<Word, map<DocId, nat>>, lengths: map<DocId, nat>, c: Corpus) {
    forall w, d :: d in lengths && Indexed(c, d) && (w in TitleWords(c, d) || w in BodyWords(c, d)) ==>
      w in inverted && d in inverted[w]
  }

  /** The maps describe exactly the documents of `c` with ids in `[lo, hi)`. */
  ghost predicate Summarizes(inverted: map<Word, map<DocId, nat>>, df: map<Word, nat>,
                             lengths: map<DocId, nat>, total: nat, c: Corpus, lo: int, hi: int)
  {
    && LengthsExact(lengths, total, c, lo, hi)
    && DfExact(inverted, df)
    && PostingsExact(inverted, lengths, c)
    && PostingsComplete(inverted, lengths, c)
  }

  /** `inverted_index[word]` of a `defaultdict(dict)`: empty when absent. */
  function Posting(inverted: map<Word, map<DocId, nat>>, w: Word): map<DocId, nat> {
    if w in inverted then inverted[w] else map[]
  }

  /** `word_df[word]` of a `defaultdict(int)`: 0 when absent. */
  function Df(df: map<Word, nat>, w: Word): nat {
    if w in df then df[w] else 0
  }

  /** The inverted index once document `id` with weighted map `tf` is recorded. */
  function AddPostings(inverted: map<Word, map<DocId, nat>>, id: DocId, tf: map<Word, nat>): map<Word, map<DocId, nat>> {
    map w | w in inverted.Keys + tf.Keys :: if w in tf then Posting(inverted, w)[id := tf[w]] else inverted[w]
  }

  /** The document frequencies once a document with weighted map `tf` is recorded. */
  function AddDf(df: map<Word, nat>, tf: map<Word, nat>): map<Word, nat> {
    map w | w in df.Keys + tf.Keys :: Df(df, w) + (if w in tf then 1 else 0)
  }

  lemma SubsetSize(a: set<DocId>, b: set<DocId>)
    requires a <= b
    ensures |a| <= |b|
  {
    assert b == a + (b - a);
    assert a * (b - a) == {};
  }

  /** The weighted term map of document `id`. */
  ghost predicate TermsOf(tf: map<Word, nat>, c: Corpus, id: DocId)
    requires id in c.pages
  {
    && (forall w :: w in tf <==> w in TitleWords(c, id) || w in BodyWords(c, id))
    && (forall w :: w in tf ==> tf[w] == Weight(TitleWords(c, id), BodyWords(c, id), w))
  }

  lemma AddDocumentLengths(lengths: map<DocId, nat>, total: nat, c: Corpus, lo: int, id: DocId)
    requires lo <= id && LengthsExact(lengths, total, c, lo, id) && Indexed(c, id)
    ensures id !in lengths
    ensures LengthsExact(lengths[id := |TitleWords(c, id)| + |BodyWords(c, id)|], total + 1, c, lo, id + 1)
  {
    var lengths' := lengths[id := |TitleWords(c, id)| + |BodyWords(c, id)|];
    assert |lengths'| == |lengths| + 1;
    forall d ensures d in lengths' <==> lo <= d < id + 1 && Indexed(c, d) {
      assert d in lengths' <==> d in lengths || d == id;
    }
  }

  lemma AddDocumentDf(inverted: map<Word, map<DocId, nat>>, df: map<Word, nat>, lengths: map<DocId, nat>,
                      c: Corpus, id: DocId, tf: map<Word, nat>)
    requires DfExact(inverted, df) && PostingsExact(inverted, lengths, c) && id !in lengths
    ensures DfExact(AddPostings(inverted, id, tf), AddDf(df, tf))
  {
    var inv', df' := AddPostings(inverted, id, tf), AddDf(df, tf);
    forall w | w in inv'
      ensures |inv'[w]| >= 1 && df'[w] == |inv'[w]|
    {
      if w in tf {
        assert id !in Posting(inverted, w);
      }
    }
  }

  lemma AddDocumentPostings(inverted: map<Word, map<DocId, nat>>, lengths: map<DocId, nat>,
                            c: Corpus, id: DocId, tf: map<Word, nat>)
    requires PostingsExact(inverted, lengths, c) && Indexed(c, id) && TermsOf(tf, c, id)
    ensures PostingsExact(AddPostings(inverted, id, tf), lengths[id := |TitleWords(c, id)| + |BodyWords(c, id)|], c)
  {
    var inv', lengths' := AddPostings(inverted, id, tf), lengths[id := |TitleWords(c, id)| + |BodyWords(c, id)|];
    forall w, d | w in inv' && d in inv'[w]
      ensures && d in lengths' && Indexed(c, d) && (w in TitleWords(c, d) || w in BodyWords(c, d))
              && inv'[w][d] == Weight(TitleWords(c, d), BodyWords(c, d), w)
    {
      if d != id {
        assert w in inverted && d in inverted[w];
      }
    }
  }

  lemma AddDocumentComplete(inverted: map<Word, map<DocId, nat>>, lengths: map<DocId, nat>,
                            c: Corpus, id: DocId, tf: map<Word, nat>)
    requires PostingsComplete(inverted, lengths, c) && Indexed(c, id) && TermsOf(tf, c, id)
    ensures PostingsComplete(AddPostings(inverted, id, tf), lengths[id := |TitleWords(c, id)| + |BodyWords(c, id)|], c)
  {
    var inv', lengths' := AddPostings(inverted, id, tf), lengths[id := |TitleWords(c, id)| + |BodyWords(c, id)|];
    forall w, d | d in lengths' && Indexed(c, d) && (w in TitleWords(c, d) || w in BodyWords(c, d))
      ensures w in inv' && d in inv'[w]
    {
      if d != id {
        assert d in lengths;
        assert w in inverted && d in inverted[w];
        assert d in Posting(inverted, w);
      } else {
        assert w in tf;
      }
    }
  }

  /** Recording a new indexed document keeps the maps exact. */
  lemma AddDocument(inverted: map<Word, map<DocId, nat>>, df: map<Word, nat>,
                    lengths: map<DocId, nat>, total: nat, c: Corpus, lo: int, id: DocId, tf: map<Word, nat>)
    requires lo <= id
    requires Summarizes(inverted, df, lengths, total, c, lo, id)
    requires Indexed(c, id) && TermsOf(tf, c, id)
    ensures Summarizes(AddPostings(inverted, id, tf), AddDf(df, tf),
                       lengths[id := |TitleWords(c, id)| + |BodyWords(c, id)|], total + 1, c, lo, id + 1)
  {
    AddDocumentLengths(lengths, total, c, lo, id);
    AddDocumentDf(inverted, df, lengths, c, id, tf);
    AddDocumentPostings(inverted, lengths, c, id, tf);
    AddDocumentComplete(inverted, lengths, c, id, tf);
  }

  /** The `weighted_tf` loops: 20 per title word, then 1 per body word. */
  method WeightTerms(titleWords: seq<Word>, bodyWords: seq<Word>) returns (tf: map<Word, nat>)
    ensures forall w :: w in tf <==> w in titleWords || w in bodyWords
    ensures forall w :: w in tf ==> tf[w] == Weight(titleWords, bodyWords, w)
  {
    tf := map[];
    for i := 0 to |titleWords|
      invariant forall w :: w in tf <==> w in titleWords[..i]
      invariant forall w :: w in tf ==> tf[w] == TitleWeight * Count(titleWords[..i], w)
    {
      var w := titleWords[i];
      assert titleWords[..i + 1] == titleWords[..i] + [w];
      tf := tf[w := (if w in tf then tf[w] else 0) + TitleWeight];
    }
    assert titleWords[..|titleWords|] == titleWords;
    for i := 0 to |bodyWords|
      invariant forall w :: w in tf <==> w in titleWords || w in bodyWords[..i]
      invariant forall w :: w in tf ==> tf[w] == TitleWeight * Count(titleWords, w) + BodyWeight * Count(bodyWords[..i], w)
    {
      var w := bodyWords[i];
      assert bodyWords[..i + 1] == bodyWords[..i] + [w];
      tf := tf[w := (if w in tf then tf[w] else 0) + BodyWeight];
    }
    assert bodyWords[..|bodyWords|] == bodyWords;
  }

  /** Recording one more word of the document's map changes one entry of
      the inverted index ... */
  lemma AddPostingsOne(inverted0: map<Word, map<DocId, nat>>, id: DocId, done: map<Word, nat>, w: Word, v: nat)
    requires w !in done
    ensures AddPostings(inverted0, id, done[w := v]) ==
            AddPostings(inverted0, id, done)[w := Posting(AddPostings(inverted0, id, done), w)[id := v]]
  {
    assert Posting(AddPostings(inverted0, id, done), w) == Posting(inverted0, w);
    var a := AddPostings(inverted0, id, done[w := v]);
    var b := AddPostings(inverted0, id, done)[w := Posting(inverted0, w)[id := v]];
    assert a.Keys == b.Keys;
    forall k | k in a ensures a[k] == b[k] {
    }
  }

  /** ... and one entry of the document frequencies. */
  lemma AddDfOne(df0: map<Word, nat>, done: map<Word, nat>, w: Word, v: nat)
    requires w !in done
    ensures AddDf(df0, done[w := v]) == AddDf(df0, done)[w := Df(AddDf(df0, done), w) + 1]
  {
    assert Df(AddDf(df0, done), w) == Df(df0, w);
    var a := AddDf(df0, done[w := v]);
    var b := AddDf(df0, done)[w := Df(df0, w) + 1];
    assert a.Keys == b.Keys;
    forall k | k in a ensures a[k] == b[k] {
    }
  }

  lemma AddNothing(inverted0: map<Word, map<DocId, nat>>, df0: map<Word, nat>, id: DocId)
    ensures AddPostings(inverted0, id, map[]) == inverted0
    ensures AddDf(df0, map[]) == df0
  {
  }

  /** The update loop over `weighted_tf.items()`: each word gets the
      posting `doc_id -> tf` and its document frequency goes up by one. */
  method RecordPostings(inverted0: map<Word, map<DocId, nat>>, df0: map<Word, nat>, id: DocId, tf: map<Word, nat>)
    returns (inverted: map<Word, map<DocId, nat>>, df: map<Word, nat>)
    ensures inverted == AddPostings(inverted0, id, tf)
    ensures df == AddDf(df0, tf)
  {
    inverted, df := inverted0, df0;
    var pending := tf.Keys;
    ghost var done: map<Word, nat> := map[];
    AddNothing(inverted0, df0, id);
    while exists w :: w in pending
      invariant pending <= tf.Keys
      invariant done.Keys == tf.Keys - pending
      invariant forall w :: w in done ==> done[w] == tf[w]
      invariant inverted == AddPostings(inverted0, id, done)
      invariant df == AddDf(df0, done)
      decreases pending
    {
      var w :| w in pending;
      AddPostingsOne(inverted0, id, done, w, tf[w]);
      AddDfOne(df0, done, w, tf[w]);
      inverted := inverted[w := Posting(inverted, w)[id := tf[w]]];
      df := df[w := Df(df, w) + 1];
      done := done[w := tf[w]];
      pending := pending - {w};
    }
    assert done == tf;
  }

  /** `sum(doc_lengths.values())` */
  method SumLengths(lengths: map<DocId, nat>) returns (sum: nat)
    ensures sum == MapSum(lengths)
  {
    sum := 0;
    var rest := lengths;
    while exists d :: d in rest
      invariant sum + MapSum(rest) == MapSum(lengths)
      decreases |rest|
    {
      var d :| d in rest;
      MapSumRemove(rest, d);
      sum := sum + rest[d];
      rest := rest - {d};
    }
  }

  /** Maps that summarize a range of documents, with the average of their
      lengths, form a well-formed snapshot. */
  lemma SummaryWellFormed(s: Snapshot, c: Corpus, lo: int, hi: int)
    requires Summarizes(s.invertedIndex, s.wordDf, s.docLengths, s.totalDocs, c, lo, hi)
    requires s.avgDocLength == Average(s.docLengths)
    ensures WellFormed(s)
  {
    assert LengthsExact(s.docLengths, s.totalDocs, c, lo, hi);
    assert PostingsExact(s.invertedIndex, s.docLengths, c);
    forall d | d in s.docLengths ensures s.docLengths[d] >= 1 {
      assert Indexed(c, d);
    }
    forall w, d | w in s.invertedIndex && d in s.invertedIndex[w]
      ensures d in s.docLengths && s.invertedIndex[w][d] >= 1
    {
      assert w in TitleWords(c, d) || w in BodyWords(c, d);
      assert w in multiset(TitleWords(c, d)) || w in multiset(BodyWords(c, d));
    }
  }

  /** `if not weighted_tf: continue` skips exactly the documents that keep
      no word. */
  lemma TermsIndexed(c: Corpus, id: DocId, tf: map<Word, nat>)
    requires id in c.pages && TermsOf(tf, c, id)
    ensures tf != map[] <==> Indexed(c, id)
  {
    var titleWords, bodyWords := TitleWords(c, id), BodyWords(c, id);
    if |titleWords| > 0 {
      assert titleWords[0] in tf;
    } else if |bodyWords| > 0 {
      assert bodyWords[0] in tf;
    } else {
      assert tf.Keys == {};
    }
  }

  /** A document that is not indexed leaves the maps as they are. */
  lemma SkipDocument(inverted: map<Word, map<DocId, nat>>, df: map<Word, nat>,
                     lengths: map<DocId, nat>, total: nat, c: Corpus, lo: int, id: DocId)
    requires lo <= id && Summarizes(inverted, df, lengths, total, c, lo, id) && !Indexed(c, id)
    ensures Summarizes(inverted, df, lengths, total, c, lo, id + 1)
  {
    assert LengthsExact(lengths, total, c, lo, id + 1);
  }

  /** One round of the build loop: look up the page of `id`, weight its
      words and, when some word is kept, record the document. */
  method IndexDocument(c: Corpus, lo: int, id: DocId, inverted0: map<Word, map<DocId, nat>>, df0: map<Word, nat>,
                       lengths0: map<DocId, nat>, total0: nat)
    returns (inverted: map<Word, map<DocId, nat>>, df: map<Word, nat>, lengths: map<DocId, nat>, total: nat)
    requires lo <= id && Summarizes(inverted0, df0, lengths0, total0, c, lo, id)
    ensures Summarizes(inverted, df, lengths, total, c, lo, id + 1)
    ensures !Indexed(c, id) ==> inverted == inverted0 && df == df0 && lengths == lengths0 && total == total0
  {
    inverted, df, lengths, total := inverted0, df0, lengths0, total0;
    if id in c.pages {
      var page := c.pages[id];
      var titleWords := Tokenize(c.segment, page.title, c.stopwords);
      var bodyWords := Tokenize(c.segment, page.body, c.stopwords);
      var tf := WeightTerms(titleWords, bodyWords);
      TermsIndexed(c, id, tf);
      if tf != map[] {
        AddDocument(inverted, df, lengths, total, c, lo, id, tf);
        inverted, df := RecordPostings(inverted, df, id, tf);
        lengths := lengths[id := |titleWords| + |bodyWords|];
        total := total + 1;
      }
    }
    if !Indexed(c, id) {
      SkipDocument(inverted, df, lengths, total, c, lo, id);
    }
  }

  /** `build_bm25_index` without the stopword loading and the saving: the
      snapshot describes exactly the indexed documents with ids in
      `start..end` and satisfies the snapshot invariants. */
  method BuildIndex(c: Corpus, start: int, end: int) returns (s: Snapshot)
    ensures WellFormed(s)
    ensures Summarizes(s.invertedIndex, s.wordDf, s.docLengths, s.totalDocs, c, start, end + 1)
  {
    var inverted: map<Word, map<DocId, nat>> := map[];
    var lengths: map<DocId, nat> := map[];
    var df: map<Word, nat> := map[];
    var total: nat := 0;
    var id := start;
    while id <= end
      invariant start <= id && (id <= end + 1 || id == start)
      invariant Summarizes(inverted, df, lengths, total, c, start, id)
    {
      inverted, df, lengths, total := IndexDocument(c, start, id, inverted, df, lengths, total);
      id := id + 1;
    }
    var sum := SumLengths(lengths);
    var avg := if total > 0 then sum as real / total as real else 0.0;
    s := Snapshot(inverted, df, lengths, total, avg);
    SummaryWellFormed(s, c, start, end + 1);
  }

  /** A snapshot with an indexed document has a positive average length, so
      the scorer's division by it is defined. */
  lemma AveragePositive(s: Snapshot, d: DocId)
    requires WellFormed(s) && d in s.docLengths
    ensures s.avgDocLength >= 1.0
  {
    MapSumAtLeastSize(s.docLengths);
    QuotientAtLeastOne(MapSum(s.docLengths), |s.docLengths|);
  }

  /** A sum of at least `n` over `n > 0` items averages at least 1. */
  lemma QuotientAtLeastOne(sum: nat, n: nat)
    requires 0 < n <= sum
    ensures sum as real / n as real >= 1.0
  {
    var q := sum as real / n as real;
    assert q * n as real == sum as real;
    assert (q - 1.0) * n as real == (sum - n) as real;
    assert (sum - n) as real >= 0.0;
  }

  /** A word's document frequency never exceeds the document count. */
  lemma DfAtMostTotal(s: Snapshot, w: Word)
    requires WellFormed(s) && w in s.invertedIndex
    ensures s.wordDf[w] <= s.totalDocs
  {
    forall d | d in s.invertedIndex[w] ensures d in s.docLengths {
      assert w in s.invertedIndex && d in s.invertedIndex[w];
    }
    SubsetSize(s.invertedIndex[w].Keys, s.docLengths.Keys);
  }
}
