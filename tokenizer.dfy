/**
  `tokenize` of search_engine.py: segment a text into words and keep the
  words that are not blank and not stopwords, in order. The segmenter
  (jieba's precise mode) is outside the model and comes in as a parameter.
 */
module Tokenizer {
  import opened PyStr

  type Word = string

  /** The external word segmenter, left uninterpreted. */
  type Segmenter = string -> seq<Word>

  /** `word.strip() and word not in stopwords` */
  predicate Kept(w: Word, stopwords: set<Word>) {
    !IsBlank(w) && w !in stopwords
  }

  /** The list comprehension's filter. */
  function Filter(ws: seq<Word>, stopwords: set<Word>): (r: seq<Word>)
    ensures |r| <= |ws|
    ensures forall i :: 0 <= i < |r| ==> Kept(r[i], stopwords)
  {
    if |ws| == 0 then []
    else
      var init, last := ws[..|ws| - 1], ws[|ws| - 1];
      assert ws == init + [last];
      Filter(init, stopwords) + (if Kept(last, stopwords) then [last] else [])
  }

  /** The filter keeps every kept word as often as it occurs, and no other word. */
  lemma {:induction false} FilterCounts(ws: seq<Word>, stopwords: set<Word>)
    ensures forall w :: multiset(Filter(ws, stopwords))[w] == if Kept(w, stopwords) then multiset(ws)[w] else 0
  {
    if |ws| > 0 {
      var init, last := ws[..|ws| - 1], ws[|ws| - 1];
      assert ws == init + [last];
      FilterCounts(init, stopwords);
    }
  }

  /** The filter keeps the original order: filtering a concatenation is the
      concatenation of the filtered parts. */
  lemma {:induction false} FilterAppend(a: seq<Word>, b: seq<Word>, stopwords: set<Word>)
    ensures Filter(a + b, stopwords) == Filter(a, stopwords) + Filter(b, stopwords)
  {
    if |b| == 0 {
      assert a + b == a;
    } else {
      var init, last := b[..|b| - 1], b[|b| - 1];
      var tail := if Kept(last, stopwords) then [last] else [];
      assert Filter(b, stopwords) == Filter(init, stopwords) + tail;
      assert Filter(a + b, stopwords) == Filter(a + init, stopwords) + tail by {
        assert (a + b)[..|a + b| - 1] == a + init;
        assert (a + b)[|a + b| - 1] == last;
      }
      FilterAppend(a, init, stopwords);
      var fa, fi := Filter(a, stopwords), Filter(init, stopwords);
      assert (fa + fi) + tail == fa + (fi + tail);
    }
  }

  /** `tokenize(text, stopwords)`: nothing for the empty text; otherwise the
      segmenter's words that survive the filter. */
  function Tokenize(segment: Segmenter, text: string, stopwords: set<Word>): (r: seq<Word>)
    ensures text == "" ==> r == []
    ensures text != "" ==> |r| <= |segment(text)|
    ensures forall i :: 0 <= i < |r| ==> Kept(r[i], stopwords)
  {
    if text == "" then [] else Filter(segment(text), stopwords)
  }

  /** The tokens are exactly the segmenter's kept words, each as often as the
      segmenter produced it. */
  lemma TokenizeCounts(segment: Segmenter, text: string, stopwords: set<Word>)
    ensures forall w :: multiset(Tokenize(segment, text, stopwords))[w] ==
                          if text != "" && Kept(w, stopwords) then multiset(segment(text))[w] else 0
  {
    if text != "" {
      FilterCounts(segment(text), stopwords);
    }
  }
}
