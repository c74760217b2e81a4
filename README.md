# OnlineTextbook: search engine and text-to-HTML converters, in Dafny

This project models the three algorithmic parts of the OnlineTextbook
repository and proves properties of them.

- **The BM25 search engine of `search_engine.py`.**
  - `load_stopwords` and its path-keyed stopword cache.
  - `tokenize`.
  - The accumulation part of `build_bm25_index`:
    - weighted term counts, 20 per title word and 1 per body word;
    - the inverted index, the document frequencies and the document lengths;
    - the document counter and the average length.
  - `bm25_score`.
  - `retrieve` with its index cache:
    - candidate collection;
    - the positive-score filter;
    - the descending sort;
    - the `[:top_n]` cut.
- **The converter `parse_txt_to_target` of `txt_to_html2.py`.**
  - A line state machine that turns a marked-up text into one HTML page per `#` line.
  - It opens a section per `【heading】` line and writes paragraph text for the other non-blank lines.
- **The earlier converter of `txt_to_html.py`.**
  - The same state machine with its own rules:
    - the buffer is never reset, so each file holds every earlier one;
    - blank lines are kept;
    - the text after `】` is dropped;
    - the last page goes, unclosed, to `output_{n}.txt`.

## Modules

| module | file | models |
|---|---|---|
| `PyStr` | `pystr.dfy` | The Python `str` operations the code relies on: `strip`, `lstrip`/`rstrip` of one character, `split(ch)[0]` and `split(ch)[1]`, `replace('\n', '<br>')`, and `str(n)` of a non-negative integer. |
| `Tokenizer` | `tokenizer.dfy` | `tokenize`. The segmenter is a parameter. |
| `IndexBuilder` | `index_builder.dfy` | The build loop as a method proved against `Summarizes`, the exact description of the maps. |
| `Scorer` | `scorer.dfy` | `bm25_score` as a function over `real`, and the loop that computes it. |
| `Retriever` | `retriever.dfy` | The ranking part of `retrieve`, proved to produce a ranking (`IsRanking`). |
| `SearchEngine` | `search_engine.dfy` | A class `Engine` holding the two caches, with `load_stopwords`, `build_bm25_index` and `retrieve`. |
| `LineLoop` | `line_loop.dfy` | `Fold`, the loop over a file's lines as a function, with its induction principles. Both converters are instances. |
| `TxtToHtml2` | `txt_to_html2.dfy` | `parse_txt_to_target` of `txt_to_html2.py`. |
| `TxtToHtml` | `txt_to_html.dfy` | `parse_txt_to_target` of `txt_to_html.py`. |

### How the converters are modelled

Each converter has the same shape:

- a `State` holds `output_count`, `current_str`, `conti` and the files written so far;
- `Step` is one iteration of the loop over the lines;
- `Run` folds `Step` over the lines;
- `Convert` adds the end-of-input emission;
- `ParseTxtToTarget` is the imperative loop, proved equal to `Convert`.

Every file write is an `OutFile(name, content)` appended to the result, in the order the program writes them.

The long template literals are values of a `Markup` record:

- the page head with its style sheet;
- the closing footer;
- the section fragments.

The conversion and every lemma hold for any markup. `Program` gives the program's own fragments; the short ones are spelled out exactly.

### Behaviour that is easy to misread

The model follows the code in each of these cases.

- **Tokenizing blank text.** `tokenize` returns `[]` early only for the empty string (search_engine.py:38-39). Whitespace-only text still goes to the segmenter; the filter then drops every blank token.
- **Missing stopword file when retrieving.** `retrieve` calls `load_stopwords`, which raises `ValueError` for a missing file, just as during the build (search_engine.py:26-30). `Retrieve` returns `StopwordsNotFound` in that case.
- **Sign of a score.** A BM25 score is never negative only when the logarithm is positive above 1. `Scorer.Bm25Sign` proves this; `ln` is a parameter.

## Model

| member | source | states |
|---|---|---|
| `PyStr.Strip` | txt_to_html2.py:17 | `strip()` never lengthens a string; what it leaves is stated by `StripMeaning` |
| `PyStr.StripMeaning` | txt_to_html2.py:17-18 | `line.strip()` is empty exactly when the line is blank; otherwise it neither starts nor ends with whitespace |
| `PyStr.StripKeeps` | txt_to_html.py:48 | `strip()` keeps every character that is not whitespace, so a `#` in the line is still in the title |
| `PyStr.StripInfix` | txt_to_html2.py:155-157 | `strip()` cuts whitespace off the two ends only: the result is the slice of the string between a blank prefix and a blank suffix |
| `PyStr.StripAvoids` | txt_to_html2.py:156 | a character the string does not hold is not in its `strip()` either |
| `PyStr.LStripChar` | txt_to_html2.py:51 | `lstrip('#')` removes exactly the leading run of `#`: the result is a suffix, everything cut is `#`, and the result does not start with `#` |
| `PyStr.LStripKeeps` | txt_to_html2.py:51 | `lstrip('#')` removes `#` only: every other character of the string stays |
| `PyStr.RStripChar` | txt_to_html2.py:14 | `rstrip('\n')` removes exactly the trailing run of newlines: the result is a prefix, everything cut is a newline, and the result does not end with one |
| `PyStr.Before` | txt_to_html2.py:155 | `split(ch)[0]` is no longer than the string, and strictly shorter when `ch` occurs |
| `PyStr.BeforeMeaning` | txt_to_html2.py:155 | `split(ch)[0]` is the longest prefix without `ch`: it is followed by `ch` when the string holds one, and is the whole string otherwise |
| `PyStr.After` | txt_to_html2.py:156 | the text after the first `ch` is strictly shorter than the string |
| `PyStr.AfterMeaning` | txt_to_html2.py:156 | the text before the first `ch`, that `ch` and the text after it make up the string again |
| `PyStr.SecondField` | txt_to_html2.py:157 | `split(ch)[1]` is strictly shorter than the string |
| `PyStr.BeforeConcat` | txt_to_html2.py:155-156 | `split(ch)[0]` of `x + y` looks into `y` only when `x` holds no `ch` |
| `PyStr.AfterConcat` | txt_to_html2.py:156-157 | the text after the first `ch` of `x + y` is the text after it in `x` followed by `y`, or, when `x` holds no `ch`, the text after it in `y` |
| `PyStr.BeforeStops` | txt_to_html2.py:155 | splitting `x + ch + y` at its first `ch`, when `x` holds none, gives `x` |
| `PyStr.AfterPast` | txt_to_html2.py:157 | ... and the text after that `ch` is `y` |
| `PyStr.ReplaceNewlines` | txt_to_html2.py:187 | `replace('\n', '<br>')` leaves no newline, changes nothing in a string without one, and never shortens |
| `PyStr.NatToString` | txt_to_html2.py:172 | `f"{n}"` is one character exactly for the numbers below 10, and never empty |
| `PyStr.NatToStringInjective` | txt_to_html2.py:172 | different numbers print differently |
| `Tokenizer.Filter` | search_engine.py:42 | the comprehension keeps only words that are not blank and not stopwords, and never adds one |
| `Tokenizer.FilterCounts` | search_engine.py:42 | every kept word stays as often as the segmenter produced it, and every other word is gone |
| `Tokenizer.FilterAppend` | search_engine.py:42 | filtering keeps the segmenter's order: the filter of a concatenation is the concatenation of the filters |
| `Tokenizer.Tokenize` | search_engine.py:37-42 | the empty text gives `[]`; otherwise at most the segmenter's words, each one kept by the filter |
| `Tokenizer.TokenizeCounts` | search_engine.py:37-42 | the tokens are exactly the segmenter's kept words with their multiplicities, and nothing for the empty text |
| `IndexBuilder.MapSumRemove` | search_engine.py:103 | `sum(doc_lengths.values())` does not depend on which key is taken first |
| `IndexBuilder.MapSumAtLeastSize` | search_engine.py:103 | a sum of lengths that are all at least 1 is at least the number of documents |
| `IndexBuilder.Weight` | search_engine.py:84-88 | the weighted count of a word is positive exactly when the title or the body keeps it, and is at least its number of occurrences |
| `IndexBuilder.Indexed` | search_engine.py:90-91 | a document is indexed exactly when its file exists and its title or body keeps a word (a predicate; `TermsIndexed` ties it to `weighted_tf`) |
| `IndexBuilder.AddPostings` | search_engine.py:96-97 | the inverted index after a document is recorded: each of its words gets the posting `doc_id → tf`, other words keep theirs (no contract of its own; `RecordPostings` is proved to compute it and `AddDocumentPostings`/`AddDocumentComplete` state what it keeps) |
| `IndexBuilder.AddDf` | search_engine.py:98 | the document frequencies after a document is recorded: one more for each of its words (no contract of its own; `AddDocumentDf` proves each df stays the size of the posting map) |
| `IndexBuilder.Average` | search_engine.py:103 | `sum(doc_lengths.values()) / total_docs`, or 0 without documents (no contract of its own; `AveragePositive` proves it is at least 1 for a built snapshot) |
| `IndexBuilder.WeightTerms` | search_engine.py:84-88 | `weighted_tf` has exactly the title and body words as keys, each mapped to 20 × its title count + its body count |
| `IndexBuilder.RecordPostings` | search_engine.py:96-98 | the loop over `weighted_tf.items()` gives every word the posting `doc_id → tf` and raises its document frequency by one, leaving the other words alone (`AddPostings`, `AddDf`) |
| `IndexBuilder.AddDocumentLengths` | search_engine.py:94-95 | recording a new indexed document adds its number of kept words to `doc_lengths` and 1 to `total_docs`, so `total_docs == len(doc_lengths)` still holds |
| `IndexBuilder.AddDocumentDf` | search_engine.py:96-98 | after recording a document that was not yet recorded, `word_df` and `inverted_index` still have the same keys, and every df is still the size of a non-empty posting map |
| `IndexBuilder.AddDocumentPostings` | search_engine.py:96-97 | after recording, every posting still names a recorded, indexed document holding the word, with value 20 × title count + body count |
| `IndexBuilder.AddDocumentComplete` | search_engine.py:96-97 | after recording, every kept word of every recorded document still has its posting |
| `IndexBuilder.AddDocument` | search_engine.py:94-98 | recording a new indexed document keeps the four maps an exact description of the documents seen so far (`Summarizes`) |
| `IndexBuilder.TermsIndexed` | search_engine.py:90-91 | `weighted_tf` is empty exactly when the document keeps no title word and no body word, so `if not weighted_tf: continue` skips exactly the non-indexed documents |
| `IndexBuilder.SkipDocument` | search_engine.py:62-66 | a missing file or a document without kept words changes none of the maps, and the maps still describe the documents seen |
| `IndexBuilder.IndexDocument` | search_engine.py:62-98 | one round of the build loop extends the exact description by one id, and changes nothing for a skipped id |
| `IndexBuilder.SumLengths` | search_engine.py:103 | computes `sum(doc_lengths.values())` |
| `IndexBuilder.SummaryWellFormed` | search_engine.py:103-112 | maps that exactly describe a range of documents form a well-formed snapshot: `total_docs == len(doc_lengths)`, lengths and postings ≥ 1, df equals posting size, equal key sets, and the average as computed |
| `IndexBuilder.BuildIndex` | search_engine.py:55-112 | the snapshot's maps hold exactly the indexed documents in `start..end` with their exact lengths, weighted postings and dfs, and the snapshot is well formed |
| `IndexBuilder.AveragePositive` | search_engine.py:147 | a snapshot with a recorded document has an average length of at least 1, so the division by `avg_len` is defined |
| `IndexBuilder.QuotientAtLeastOne` | search_engine.py:103 | a sum of at least `n` divided by `n > 0` is at least 1 |
| `IndexBuilder.DfAtMostTotal` | search_engine.py:98 | a word's df never exceeds `total_docs` |
| `Scorer.IdfArgument` | search_engine.py:145 | the logarithm's argument is above 1 whenever `df <= total_docs` |
| `Scorer.TfPart` | search_engine.py:147 | the TF part is defined for a positive average, is never negative, and is positive exactly when `tf > 0` |
| `Scorer.TermFrequency` | search_engine.py:141 | `inverted_index[word].get(doc_id, 0)` (no contract of its own; `TermScoreSign` proves the term score positive exactly when it is) |
| `Scorer.TermScore` | search_engine.py:143-149 | `idf * tf_part` for one known word (no contract of its own; `TermScoreSign` states its sign) |
| `Scorer.SumTerms` | search_engine.py:136-149 | the loop's sum over the query words in order, skipping unknown ones (no contract of its own; `SumTermsAppend`, `Bm25SkipsUnknownWords` and `Bm25Sign` state its properties, `Bm25Score` computes it) |
| `Scorer.Bm25` | search_engine.py:132-134 | a document without a recorded length scores 0 |
| `Scorer.Bm25Score` | search_engine.py:123-150 | the scoring loop returns `Bm25`, the sum over the query words in order of the term scores of the words the index knows, or 0 for a document without a recorded length; it changes nothing |
| `Scorer.SumTermsAppend` | search_engine.py:136-149 | the score is a sum over the query words in order: the sum over a concatenation is the sum of the sums |
| `Scorer.Bm25Append` | search_engine.py:136-149 | scoring a concatenated query adds the scores of its parts |
| `Scorer.KnownWords` | search_engine.py:138-139 | the words the inverted index knows, in order: exactly the query words that are keys of the index |
| `Scorer.Bm25SkipsUnknownWords` | search_engine.py:138-139 | query words missing from the inverted index contribute nothing |
| `Scorer.Bm25NoKnownWord` | search_engine.py:136-139 | a query none of whose words the index knows scores 0 |
| `Scorer.TermScoreSign` | search_engine.py:145-149 | with a logarithm positive above 1, a term score is never negative, and positive exactly when the document carries the word |
| `Scorer.Bm25Sign` | search_engine.py:131-150 | with a logarithm positive above 1, a score is never negative, and positive exactly when the document carries a query word |
| `Retriever.CollectCandidates` | search_engine.py:178-181 | `candidate_docs` is exactly the union of the postings of the query words the index knows |
| `Retriever.ScoreCandidates` | search_engine.py:186-190 | `doc_scores` holds one pair per candidate with a positive score, carrying that score, and nothing else, with no document twice |
| `Retriever.InsertByScore` | search_engine.py:193 | inserting a hit adds exactly that hit |
| `Retriever.InsertKeepsSorted` | search_engine.py:193 | inserting into a list in descending score order keeps it in that order |
| `Retriever.SortByScore` | search_engine.py:193 | the sort is a permutation of `doc_scores` in non-increasing score order |
| `Retriever.Take` | search_engine.py:194 | `[:top_n]` is a prefix: `top_n` elements or all of them for `top_n >= 0`, and all but the last `-top_n` for a negative one |
| `Retriever.RepeatCounted` | search_engine.py:193 | a pair at two positions is counted twice |
| `Retriever.DistinctCountedOnce` | search_engine.py:190 | pairwise different pairs are each counted once |
| `Retriever.PermutationKeepsDistinct` | search_engine.py:193 | reordering or cutting the scored pairs keeps each pair's score and keeps the documents pairwise different |
| `Retriever.SortedCutKeepsHits` | search_engine.py:193-194 | after sorting and cutting, every hit is a matching document with its positive score, no document twice, best first |
| `Retriever.SortedCutKeepsBest` | search_engine.py:193-194 | a hit the cut leaves out scores no higher than every hit kept, and then a non-negative cut is full |
| `Retriever.SortedCutLeavesOutLower` | search_engine.py:193-194 | every positively scored matching document left out scores no higher than every kept hit, and then a non-negative cut holds exactly `top_n` hits |
| `Retriever.SortedCutIsRanking` | search_engine.py:186-194 | sorting the scored candidates and cutting the list yields a ranking |
| `Retriever.OmittedScoreLower` | search_engine.py:194 | a hit the cut leaves out scores no higher than any hit kept, and a non-negative cut that leaves something out has exactly `top_n` hits |
| `Retriever.Rank` | search_engine.py:173-194 | no query word gives `[]`; otherwise the result is a ranking (`IsRanking`): matching documents with their positive scores, in non-increasing order, no document twice, at most `top_n` for `top_n >= 0`, and every left-out positively scored match is beaten by all kept hits, with the list full; no candidate gives `[]` |
| `Retriever.CandidatesScorePositive` | search_engine.py:189 | with a logarithm positive above 1, every candidate scores above 0, so `if score > 0` drops none |
| `Retriever.IsRanking` | search_engine.py:186-194 | what `retrieve` returns: matching documents with their positive scores, in non-increasing order, no document twice, at most `top_n`, and no left-out match scoring above a kept hit (a predicate; `Rank` and `SortedCutIsRanking` prove it) |
| `SearchEngine.Resolve` | search_engine.py:23 | `path or DEFAULT`: the given path unless it is missing or empty, in which case the default |
| `SearchEngine.StopwordSet` | search_engine.py:29 | `set(lines)` holds exactly the file's lines |
| `SearchEngine.CacheAfterLoad` | search_engine.py:21-34 | the stopword cache after `load_stopwords`: every cached entry stays, and the path is cached exactly when it was already or its file exists |
| `SearchEngine.LoadedStopwords` | search_engine.py:22-33 | the set `load_stopwords` returns when it returns one: the cached set, or else the file's lines (no contract of its own; used by the contracts of `BuildBm25Index` and `Retrieve`) |
| `SearchEngine.Engine.constructor` | search_engine.py:12-17 | the default paths fixed and both caches empty |
| `SearchEngine.Engine.LoadStopwords` | search_engine.py:21-34 | a cached path returns the cached set and leaves the cache alone; otherwise an existing file's line set is returned and cached; a missing file is `StopwordsNotFound` and leaves the cache unchanged |
| `SearchEngine.Engine.BuildBm25Index` | search_engine.py:46-119 | the stopwords are loaded first, with the cache updated as `load_stopwords` does; the build fails exactly when the stopword path is neither cached nor on disk, and then returns `StopwordsNotFound` with the disk unchanged; otherwise the snapshot exactly describes the indexed documents in `start..end` (default 1..107) for the loaded stopwords, is well formed and is saved at `save_path` (default the index path); the index cache is not refreshed |
| `SearchEngine.Engine.Retrieve` | search_engine.py:153-194 | the stopwords are loaded first, with the cache updated as `load_stopwords` does; a stopword error comes first, then `IndexNotFound` for an index neither cached nor on disk, both with the index cache unchanged; otherwise the cached index is reused, or the one on disk is loaded and cached; the query is tokenized with the stopwords that were cached or read; no token gives `[]`, and the result is a ranking of the snapshot for those tokens, cut at `top_n` (default 10) |
| `TxtToHtml2.Lines` | txt_to_html2.py:14 | one line per line read, each with its trailing newlines removed |
| `TxtToHtml2.NotBlank` | txt_to_html2.py:17-18 | a line holding `#` or `【` is never skipped as blank |
| `TxtToHtml2.TitleOf` | txt_to_html2.py:51 | the title neither starts nor ends with whitespace and is no longer than the line |
| `TxtToHtml2.TitleKeepsText` | txt_to_html2.py:51 | the title keeps every character of the line that is neither whitespace nor `#` |
| `TxtToHtml2.Head` | txt_to_html2.py:53-141 | the page head with the title in `<title>` and in the character display (no contract of its own; `TitleStepShaped` and `ConvertWritesOnePagePerTitle` prove every page starts with it) |
| `TxtToHtml2.Closed` | txt_to_html2.py:24-44 | a finished page: the buffer, the last section's close and the related-words footer (no contract of its own; `ClosedEnds` and `ClosedExtends` state its ends) |
| `TxtToHtml2.Leading` | txt_to_html2.py:155 | the text before the first `【`, stripped: it holds no `【` and neither starts nor ends with whitespace |
| `TxtToHtml2.Heading` | txt_to_html2.py:156 | the heading, stripped: it holds neither bracket and neither starts nor ends with whitespace |
| `TxtToHtml2.Trailing` | txt_to_html2.py:157 | the text after the first `】`, stripped: it holds no `】` and neither starts nor ends with whitespace |
| `TxtToHtml2.BrText` | txt_to_html2.py:160-161 | `f"{s.replace('\n', '<br>')}<br>"` for non-empty `s`: nothing exactly for empty text, and never a raw newline |
| `TxtToHtml2.ImageBlock` | txt_to_html2.py:169-173 | the image block of page `n` (no contract of its own; `ImageNamesItsPage` proves different pages give different blocks) |
| `TxtToHtml2.Run` | txt_to_html2.py:16-187 | the state after the loop over the lines (no contract of its own; `RunShaped`, `BlankLinesIgnored` and `ContiCountsSections` describe it, `ParseTxtToTarget` keeps its loop equal to it) |
| `TxtToHtml2.Finish` | txt_to_html2.py:190-213 | after the loop, the last page is closed and written when there is one (no contract of its own; `ConvertWritesOnePagePerTitle` states the result) |
| `TxtToHtml2.Convert` | txt_to_html2.py:4-213 | the files written for the lines, in order (no contract of its own; `ConvertWritesOnePagePerTitle`, `NoTitleNoFiles` and `PreambleNeverWritten` state its properties) |
| `TxtToHtml2.TitleStep` | txt_to_html2.py:22-143 | a `#` line raises `output_count` by 1, resets `conti` to 0, replaces the buffer by the head of the line's title, and writes `htmls\{n}.html` (the closed page) when a page was open |
| `TxtToHtml2.SectionStep` | txt_to_html2.py:146-184 | a section line keeps the page count and written files, raises `conti` by 1 and only appends to the buffer |
| `TxtToHtml2.TextStep` | txt_to_html2.py:187 | a text line only appends to the buffer |
| `TxtToHtml2.Step` | txt_to_html2.py:16-187 | blank lines change nothing; `#` is tested before the brackets, so a line with both is a title; the page count grows by one per `#` line; `conti` is reset by a title and raised by a section line |
| `TxtToHtml2.AppendSection` | txt_to_html2.py:146-184 | the section branch appends exactly what `SectionStep` specifies |
| `TxtToHtml2.StartPage` | txt_to_html2.py:22-53 | the title branch closes and writes the open page and starts the new page's buffer as `TitleStep` specifies |
| `TxtToHtml2.HandleLine` | txt_to_html2.py:16-187 | the loop body performs exactly one `Step` |
| `TxtToHtml2.ParseTxtToTarget` | txt_to_html2.py:4-213 | the files written are `Convert` of the right-stripped lines |
| `TxtToHtml2.NonBlank` | txt_to_html2.py:17-19 | dropping blank lines never lengthens the input |
| `TxtToHtml2.BlankLinesIgnored` | txt_to_html2.py:16-19 | lines that are empty after `strip()` are ignored entirely: the state is the same without them |
| `TxtToHtml2.ClosedEnds` | txt_to_html2.py:24-44 | a closed page ends with the section close and the footer |
| `TxtToHtml2.ClosedExtends` | txt_to_html2.py:24-44 | closing a page keeps what it starts with |
| `TxtToHtml2.TitleStepShaped` | txt_to_html2.py:24-53 | a `#` line keeps the output shape with its title added: the open page is written as file `n`, starting with its head and ending closed, and the new page starts with the new head |
| `TxtToHtml2.OtherStepShaped` | txt_to_html2.py:146-187 | any other line keeps the written files and only appends to the open page |
| `TxtToHtml2.StepShaped` | txt_to_html2.py:16-187 | every line keeps the output shape, adding its title when it has one |
| `TxtToHtml2.RunShaped` | txt_to_html2.py:16-187 | after any prefix of the input, one page per `#` line so far, all but the last written, numbered from 1 |
| `TxtToHtml2.ConvertWritesOnePagePerTitle` | txt_to_html2.py:24-213 | exactly one file per `#` line, numbered 1..n in order; file k starts with the head of the k-th title and ends with the closing markup |
| `TxtToHtml2.NoTitleNoTitles` | txt_to_html2.py:22 | lines without `#` have no titles |
| `TxtToHtml2.NoTitleNoFiles` | txt_to_html2.py:190-213 | without a `#` line no page is opened and no file is written |
| `TxtToHtml2.PreambleNeverWritten` | txt_to_html2.py:53 | text before the first `#` line is never written: with or without it, the state and the files are the same |
| `TxtToHtml2.SinceLastTitle` | txt_to_html2.py:142 | the lines after the last `#` line hold no `#` |
| `TxtToHtml2.ContiCountsSections` | txt_to_html2.py:142-152 | `conti` is the number of section lines since the last `#` line, so the section-closing markup is emitted exactly when an earlier section of the same page is open |
| `TxtToHtml2.SectionParts` | txt_to_html2.py:155-157 | for `a【h】b` with no bracket in `a` or `h`, the leading text is `a` stripped, the heading `h` stripped, and the trailing text `b` stripped up to any further `】` |
| `TxtToHtml2.ImageNamesItsPage` | txt_to_html2.py:172 | the image block names its page: different page numbers give different blocks |
| `TxtToHtml2.ImageOnlyUnderShape` | txt_to_html2.py:169-173 | the image block of the current page follows the heading exactly when the heading is `形` |
| `TxtToHtml.BeforeLeft` | txt_to_html.py:180 | `line.split('【')[0]` begins the line and holds no `【` |
| `TxtToHtml.Middle` | txt_to_html.py:181 | `line.split('【')[1].split('】')[0]` holds neither bracket |
| `TxtToHtml.TextLine` | txt_to_html.py:199-200 | a piece of text as a line of the page: it ends with a newline and holds no other |
| `TxtToHtml.Run` | txt_to_html.py:16-200 | the state after the loop over the lines (no contract of its own; `RunCounts`, `BufferOnlyGrows` and `FilesArePrefixChain` describe it, `ParseTxtToTarget` keeps its loop equal to it) |
| `TxtToHtml.Finish` | txt_to_html.py:203-205 | after the loop, the buffer goes unclosed to `output_{n}.txt` when a page was opened (no contract of its own; `FileNames` states the result) |
| `TxtToHtml.Convert` | txt_to_html.py:1-205 | the files written for the lines, in order (no contract of its own; `FileNames`, `NoTitleNoFiles` and `PreambleInEveryFile` state its properties) |
| `TxtToHtml.TitleStep` | txt_to_html.py:18-169 | a `#` line raises `output_count` by 1, leaves `conti`, and only appends to the buffer; when a page was open, the buffer plus the closing markup is written as `htmls\{n}.html` and is where the new head starts |
| `TxtToHtml.SectionStep` | txt_to_html.py:172-196 | a section line raises `conti` by 1, keeps the page count and written files, and only appends |
| `TxtToHtml.TextStep` | txt_to_html.py:199-200 | any other line is appended with newlines replaced by `<br>` and a newline added |
| `TxtToHtml.Step` | txt_to_html.py:16-200 | `#` first, then brackets, then text; the page count grows by one per `#` line, `conti` by one per section line; the buffer only grows; only titles write |
| `TxtToHtml.StartPage` | txt_to_html.py:18-169 | the title branch does what `TitleStep` specifies |
| `TxtToHtml.AppendSection` | txt_to_html.py:172-196 | the section branch appends what `SectionStep` specifies |
| `TxtToHtml.HandleLine` | txt_to_html.py:16-200 | the loop body performs exactly one `Step` |
| `TxtToHtml.ParseTxtToTarget` | txt_to_html.py:1-205 | the files written are `Convert` of the lines read |
| `TxtToHtml.RunCounts` | txt_to_html.py:173-177 | `output_count` is the number of `#` lines and `conti` the number of section lines of the whole input, never reset at a new page |
| `TxtToHtml.NoTitleCountsZero` | txt_to_html.py:18 | no `#` line, no page counted |
| `TxtToHtml.BufferOnlyGrows` | txt_to_html.py:46-49 | `current_str` is only appended to: after some lines it begins what it is after more |
| `TxtToHtml.StepAccumulates` | txt_to_html.py:20-43 | each step keeps every written file a prefix of the later ones and of the buffer |
| `TxtToHtml.FilesArePrefixChain` | txt_to_html.py:18-49 | the content of each written file begins the content of every later file |
| `TxtToHtml.FileNames` | txt_to_html.py:42-205 | one file per `#` line: `htmls\1.html` to `htmls\{n-1}.html` in order, then `output_{n}.txt` holding the final buffer without the closing markup |
| `TxtToHtml.NoTitleNoFiles` | txt_to_html.py:203-205 | without a `#` line nothing is written |
| `TxtToHtml.StepKeeps` | txt_to_html.py:49 | a prefix of the buffer and of every written file stays one after a step |
| `TxtToHtml.PreambleInEveryFile` | txt_to_html.py:18-49 | the lines before the first `#` line begin every written file |
| `TxtToHtml.SectionParts` | txt_to_html.py:180-181 | for `a【h】b` with no `【` in `a` and no bracket in `h`, the text before is `a` and the heading is `h`, both unstripped |
| `TxtToHtml.TrailingTextDropped` | txt_to_html.py:182-196 | the text after `】` is never emitted: section lines differing only there change the state alike |
| `TxtToHtml.TextLineKept` | txt_to_html.py:199-200 | every other line, blank ones included, is appended as a line of its own |
| `TxtToHtml.TitleKeptWhole` | txt_to_html.py:48-165 | the title is the whole stripped line, `#` included, put into `<title>` and into the character display |

## Left out

- **Word segmentation.** jieba's segmentation is a parameter `segment: string -> seq<Word>`. It is a foreign library.
- **Default arguments.** An omitted `stopwords_path`, `index_path`, `save_path`, `start`, `end` or `top_n` is `None` in the model and takes its default (`Given`, `Resolve`). The default `htmls_dir` is whatever `pages` map the caller passes.
- **HTML parsing.** BeautifulSoup parsing, the utf-8/gbk decoding fallback and the `<title>`/`<p>` extraction are a map from document id to `Page(title, body)`; an id without a page has no file.
- **Storage and environment.**
  - pickle, file reads and writes, `mkdir`, `os.getenv` and `print` are I/O.
  - Stopword files are their lines after `splitlines()`.
  - Index files are the snapshots they hold.
  - The converters take the lines read and return the files they write, in order.
  - The environment-dependent default paths are constructor parameters.
- **BM25 arithmetic.**
  - Floating point is `real`; `math.log` is a parameter `ln`.
  - Only the structure of the score is proved: the zero cases, the skipped words, the sum in order, and the sign under a logarithm positive above 1.
  - `k1` and `b` are the constants 1.2 and 0.75, the only values any caller passes.
- **Ties in the ranking.** Among equal scores the order of `retrieve` depends on Python's set iteration order.
  - The model iterates the candidate set in an arbitrary order.
  - It sorts stably.
  - The ranking is specified up to that order.
- `SearchEngine.Engine.Retrieve` and `Scorer.Bm25`: they require the snapshot to be well formed, as every snapshot the build produces is. Without that, the source's division by `avg_len` is undefined.
- **The index cache.** It caches only snapshots, which are never empty, so the source's `if not index_data` is modelled as "not in the cache".
- **The interactive `__main__` blocks** of the three files. These are the console loop and the example calls.
- **The HTML templates.**
  - The long page heads are parameters: `headMiddle` in `TxtToHtml`, `HeadTemplate` in `TxtToHtml2`. They are the style sheet of the page head, with the title inserted.
  - The short fragments and the footer are exact constants.
  - The lemmas hold for any markup.
- `in_bracket` and `bracket_str` of `txt_to_html.py` are never changed after their initialisation, so the model leaves them out. The plain-line branch is always taken.
- The unused `after_right` of `txt_to_html.py` is computed in `TxtToHtml.AppendSection` and never emitted, as in the source.
- **Other files.** The Flask application (`online_textbook/__init__.py`, `flask_to_web.py`), `Word_to_txt.py` and `htmls/change_bg.py` are not part of this model. They are web plumbing, a python-docx wrapper and a file-rewriting script.
