/**
  `parse_txt_to_target` of txt_to_html.py, the earlier variant of the
  converter. It runs the same line state machine as txt_to_html2.py with
  different rules: the buffer `current_str` is only ever appended to, so
  every file holds everything before it; the title is the whole stripped
  line, `#` included; `conti` is never reset; the text after `】` is
  dropped; blank lines are kept; and the last page goes, unclosed, to
  `output_{n}.txt`.

  As in the later variant the conversion is defined for any `Markup`;
  `Program` holds the program's own fragments, with the style sheet in the
  middle of the page head given as a parameter.
 */
module TxtToHtml {
  import opened PyStr
  import opened LineLoop

  /** Everything the converter writes that does not come from the input. */
  datatype Markup = Markup(
    headOpen: string,         // the page head up to `<title>`
    headMiddle: string,       // from `</title>` through the style sheet to the character display
    headClose: string,        // after the character display
    pageClose: string,        // closes a page: its last section, the related-characters block, the end
    sectionClose: string,     // closes the previous section before a new one
    sectionOpen: string,      // opens a section, up to its heading
    readingOpen: string)      // after the heading, opens the reading paragraph

  const HeadOpen: string :=
    "<!DOCTYPE html>\n<html lang=\"zh-CN\">\n\n<head>\n    <meta charset=\"UTF-8\">\n"
    + "    <meta name=\"viewport\" content=\"width=device-width, initial-scale=1.0\">\n    <title>"
  const HeadClose: string := "</div>\n\n        </section>"
  const PageClose: string :=
    "</p>\n            </div>\n        </div>\n\n        <div class=\"section related-words\">\n"
    + "            <h3>相关汉字</h3>\n            <div class=\"related-container\">\n"
    + "                <!-- 循环渲染4个相关项，假设Flask传入的变量是related_items（列表） -->\n"
    + "                {% for item in related_items %}\n                <div class=\"related-item\">\n"
    + "                    <a href=\"{{ item.url }}\">{{ item.text }}</a>\n"
    + "                    <!-- 可选：如果需要描述文字，也可以动态传入 -->\n"
    + "                    <p>{{ item.desc }}</p>\n                </div>\n                {% endfor %}\n"
    + "            </div>\n        </div>\n    </div>\n</body>\n\n</html>"
  const SectionClose: string := "</p>\n            </div>\n        </div>"
  const SectionOpen: string := "        <div class=\"section\">\n            <h3>"
  const ReadingOpen: string := "</h3>\n            <div class=\"reading\">\n                <p>"

  /** The markup of txt_to_html.py. */
  function Program(headMiddle: string): Markup {
    Markup(HeadOpen, headMiddle, HeadClose, PageClose, SectionClose, SectionOpen, ReadingOpen)
  }

  /** Where a page goes: `htmls\{n}.html` when the next page starts, or
      `output_{n}.txt` for the last one. */
  datatype FileName = Html(n: nat) | OutputTxt(n: nat)

  datatype OutFile = OutFile(name: FileName, content: string)

  /** `output_count`, `current_str`, `conti` and the files written so far. */
  datatype State = State(outputCount: nat, current: string, conti: nat, written: seq<OutFile>)

  predicate IsTitleLine(line: string) {
    '#' in line
  }

  /** A section line: not a title, and holding both brackets. */
  predicate IsSectionLine(line: string) {
    !IsTitleLine(line) && '【' in line && '】' in line
  }

  /** `line.split('【')[0]`: the part of the line before its first `【`. */
  function BeforeLeft(line: string): (r: string)
    ensures r <= line && '【' !in r
  {
    BeforeMeaning(line, '【');
    Before(line, '【')
  }

  /** `line.split('【')[1].split('】')[0]`, not stripped. */
  function Middle(line: string): (r: string)
    requires '【' in line
    ensures '【' !in r && '】' !in r
  {
    var field := SecondField(line, '【');
    BeforeMeaning(After(line, '【'), '【');
    BeforeMeaning(field, '】');
    assert Before(field, '】') == field[..|Before(field, '】')|];
    Before(field, '】')
  }

  /** `f"{s.replace('\n', '<br>')}\n"`: a piece of text as a line of the page. */
  function TextLine(s: string): (r: string)
    ensures |r| > 0 && r[|r| - 1] == '\n' && '\n' !in r[..|r| - 1]
  {
    var r := ReplaceNewlines(s) + "\n";
    assert r[..|r| - 1] == ReplaceNewlines(s);
    r
  }

  /** A `#` line: the buffer, if a page is open, is closed and written out
      whole, and the head of the new page, with the stripped line as its
      title, is appended to it. */
  function TitleStep(st: State, line: string, m: Markup): (r: State)
    ensures r.outputCount == st.outputCount + 1 && r.conti == st.conti
    ensures st.current <= r.current
    ensures st.outputCount == 0 ==> r.written == st.written
    ensures st.outputCount > 0 ==>
      && r.written == st.written + [OutFile(Html(st.outputCount), st.current + m.pageClose)]
      && st.current + m.pageClose <= r.current
  {
    var closed := if st.outputCount > 0 then st.current + m.pageClose else st.current;
    var written := if st.outputCount > 0 then st.written + [OutFile(Html(st.outputCount), closed)] else st.written;
    var title := Strip(line);
    var current := closed + m.headOpen + title + m.headMiddle + title + m.headClose;
    AppendsExtend(closed, m.headOpen, title, m.headMiddle, title, m.headClose, "", "");
    assert closed + m.headOpen + title + m.headMiddle + title + m.headClose + "" + "" == current;
    AppendsExtend(st.current, m.pageClose, "", "", "", "", "", "");
    assert st.current + m.pageClose + "" + "" + "" + "" + "" + "" == st.current + m.pageClose;
    PrefixTransitive(st.current, closed, current);
    State(st.outputCount + 1, current, st.conti, written)
  }

  /** A section line `before【heading】after`: the previous section, if one
      was ever opened, is closed; `before` becomes a line of its own unless
      it is blank; the heading, unstripped, opens the new section; `after`
      is dropped. */
  function SectionStep(st: State, line: string, m: Markup): (r: State)
    requires '【' in line && '】' in line
    ensures r.outputCount == st.outputCount && r.written == st.written
    ensures r.conti == st.conti + 1
    ensures st.current <= r.current
  {
    var closed := if st.conti > 0 then st.current + m.sectionClose else st.current;
    var beforeLeft := BeforeLeft(line);
    var introduced := if !IsBlank(beforeLeft) then closed + TextLine(beforeLeft) else closed;
    var current := introduced + m.sectionOpen + Middle(line) + m.readingOpen;
    AppendsExtend(introduced, m.sectionOpen, Middle(line), m.readingOpen, "", "", "", "");
    assert introduced + m.sectionOpen + Middle(line) + m.readingOpen + "" + "" + "" + "" == current;
    AppendsExtend(closed, if !IsBlank(beforeLeft) then TextLine(beforeLeft) else "", "", "", "", "", "", "");
    assert closed + (if !IsBlank(beforeLeft) then TextLine(beforeLeft) else "") + "" + "" + "" + "" + "" + "" == introduced;
    PrefixTransitive(closed, introduced, current);
    PrefixTransitive(st.current, closed, current);
    State(st.outputCount, current, st.conti + 1, st.written)
  }

  /** Any other line, blank ones included, is appended as a line of text. */
  function TextStep(st: State, line: string): (r: State)
    ensures r.outputCount == st.outputCount && r.written == st.written && r.conti == st.conti
    ensures r.current == st.current + TextLine(line)
  {
    State(st.outputCount, st.current + TextLine(line), st.conti, st.written)
  }

  /** One iteration of the loop over the lines. */
  function Step(st: State, line: string, m: Markup): (r: State)
    ensures r.outputCount == st.outputCount + (if IsTitleLine(line) then 1 else 0)
    ensures r.conti == st.conti + (if IsSectionLine(line) then 1 else 0)
    ensures st.current <= r.current
    ensures !IsTitleLine(line) ==> r.written == st.written
  {
    if IsTitleLine(line) then TitleStep(st, line, m)
    else if '【' in line && '】' in line then SectionStep(st, line, m)
    else TextStep(st, line)
  }

  const Init: State := State(0, "", 0, [])

  /** `Step` for the markup `m`, as the loop's step function. */
  function StepWith(m: Markup): (State, string) -> State {
    (st, line) => Step(st, line, m)
  }

  /** The state after the loop has consumed `lines`. */
  function Run(lines: seq<string>, m: Markup): State {
    Fold(Init, StepWith(m), lines)
  }

  /** After the loop: the buffer goes, as it is, to `output_{n}.txt` when a
      page was opened. */
  function Finish(st: State): seq<OutFile> {
    if st.outputCount > 0 then st.written + [OutFile(OutputTxt(st.outputCount), st.current)] else st.written
  }

  /** The files written for the lines, in order. */
  function Convert(lines: seq<string>, m: Markup): seq<OutFile> {
    Finish(Run(lines, m))
  }

  /** The title branch of the loop. */
  method StartPage(st: State, line: string, m: Markup) returns (current: string, written: seq<OutFile>)
    requires IsTitleLine(line)
    ensures current == TitleStep(st, line, m).current && written == TitleStep(st, line, m).written
  {
    current, written := st.current, st.written;
    if st.outputCount > 0 {
      current := current + m.pageClose;
      written := written + [OutFile(Html(st.outputCount), current)];
    }
    var title := Strip(line);
    current := current + m.headOpen;
    current := current + title;
    current := current + m.headMiddle;
    current := current + title;
    current := current + m.headClose;
  }

  /** The section branch of the loop. */
  method AppendSection(st: State, line: string, m: Markup) returns (current: string)
    requires '【' in line && '】' in line
    ensures current == SectionStep(st, line, m).current
  {
    current := st.current;
    if st.conti > 0 {
      current := current + m.sectionClose;
    }
    var beforeLeft := Before(line, '【');
    var middle := Before(SecondField(line, '【'), '】');
    var afterRight := SecondField(line, '】');
    if !IsBlank(beforeLeft) {
      current := current + (ReplaceNewlines(beforeLeft) + "\n");
    }
    current := current + m.sectionOpen;
    current := current + middle;
    current := current + m.readingOpen;
  }

  /** The body of the loop over the lines: the title branch, the section
      branch, or the line as text. */
  method HandleLine(outputCount: nat, current: string, conti: nat, files: seq<OutFile>, line: string, m: Markup)
    returns (outputCount': nat, current': string, conti': nat, files': seq<OutFile>)
    ensures State(outputCount', current', conti', files') == Step(State(outputCount, current, conti, files), line, m)
  {
    outputCount', current', conti', files' := outputCount, current, conti, files;
    if '#' in line {
      current', files' := StartPage(State(outputCount, current, conti, files), line, m);
      outputCount' := outputCount + 1;
    } else if '【' in line && '】' in line {
      current' := AppendSection(State(outputCount, current, conti, files), line, m);
      conti' := conti + 1;
    } else {
      current' := current + (ReplaceNewlines(line) + "\n");
    }
  }

  /** `parse_txt_to_target(input_txt_path)`, with the file's `readlines()`
      (newlines kept) as input and the written files, in order, as output. */
  method ParseTxtToTarget(lines: seq<string>, headMiddle: string) returns (files: seq<OutFile>)
    ensures files == Convert(lines, Program(headMiddle))
  {
    var m := Program(headMiddle);
    var outputCount: nat := 0;
    var current := "";
    var conti: nat := 0;
    files := [];
    for i := 0 to |lines|
      invariant State(outputCount, current, conti, files) == Run(lines[..i], m)
    {
      FoldNext(Init, StepWith(m), lines, i);
      outputCount, current, conti, files := HandleLine(outputCount, current, conti, files, lines[i], m);
    }
    assert lines[..|lines|] == lines;
    if outputCount > 0 {
      files := files + [OutFile(OutputTxt(outputCount), current)];
    }
  }

  // ---------------------------------------------------------------------
  // Properties of the conversion

  function CountTitles(lines: seq<string>): nat {
    if |lines| == 0 then 0
    else CountTitles(lines[..|lines| - 1]) + (if IsTitleLine(lines[|lines| - 1]) then 1 else 0)
  }

  function CountSections(lines: seq<string>): nat {
    if |lines| == 0 then 0
    else CountSections(lines[..|lines| - 1]) + (if IsSectionLine(lines[|lines| - 1]) then 1 else 0)
  }

  /** `output_count` counts the `#` lines and `conti` counts every section
      line of the whole input: it is never reset at a new page, so the
      first section of every page but the first is preceded by the
      section-closing markup too. */
  lemma RunCounts(lines: seq<string>, m: Markup)
    ensures Run(lines, m).outputCount == CountTitles(lines)
    ensures Run(lines, m).conti == CountSections(lines)
  {
    forall ls: seq<string>, st: State, line: string
      | st.outputCount == CountTitles(ls) && st.conti == CountSections(ls)
      ensures Step(st, line, m).outputCount == CountTitles(ls + [line])
      ensures Step(st, line, m).conti == CountSections(ls + [line])
    {
      assert (ls + [line])[..|ls|] == ls;
    }
    assert CountTitles([]) == 0 && CountSections([]) == 0;
    FoldInduction(Init, StepWith(m),
                  (ls: seq<string>, st: State) => st.outputCount == CountTitles(ls) && st.conti == CountSections(ls),
                  lines);
  }

  /** Without a `#` line there is nothing to count. */
  lemma {:induction false} NoTitleCountsZero(lines: seq<string>)
    requires forall i :: 0 <= i < |lines| ==> !IsTitleLine(lines[i])
    ensures CountTitles(lines) == 0
  {
    if |lines| > 0 {
      NoTitleCountsZero(lines[..|lines| - 1]);
    }
  }

  /** The buffer is only ever appended to: what it holds after some of
      the lines begins what it holds after more of them. */
  lemma BufferOnlyGrows(lines: seq<string>, i: nat, j: nat, m: Markup)
    requires i <= j <= |lines|
    ensures Run(lines[..i], m).current <= Run(lines[..j], m).current
  {
    var p := Run(lines[..i], m).current;
    forall st: State, line: string | p <= st.current
      ensures p <= Step(st, line, m).current
    {
      PrefixTransitive(p, st.current, Step(st, line, m).current);
    }
    FoldInductionFrom(Init, StepWith(m), (ls: seq<string>, st: State) => p <= st.current, lines, i, j);
  }

  /** Every file written so far begins every later one, and the buffer. */
  ghost predicate Accumulates(st: State) {
    && (forall j :: 0 <= j < |st.written| ==> st.written[j].content <= st.current)
    && (forall j, k :: 0 <= j < k < |st.written| ==> st.written[j].content <= st.written[k].content)
  }

  lemma StepAccumulates(st: State, line: string, m: Markup)
    requires Accumulates(st)
    ensures Accumulates(Step(st, line, m))
  {
    var r := Step(st, line, m);
    forall j | 0 <= j < |r.written|
      ensures r.written[j].content <= r.current
    {
      if j < |st.written| {
        assert r.written[j] == st.written[j];
        PrefixTransitive(st.written[j].content, st.current, r.current);
      }
    }
    forall j, k | 0 <= j < k < |r.written|
      ensures r.written[j].content <= r.written[k].content
    {
      if k < |st.written| {
        assert r.written[j] == st.written[j] && r.written[k] == st.written[k];
      } else {
        assert r.written[j] == st.written[j];
        assert r.written[k].content == st.current + m.pageClose;
        PrefixTransitive(st.written[j].content, st.current, r.written[k].content);
      }
    }
  }

  /** Each file holds every earlier file whole at its start: the content of
      file k begins the content of every later file. */
  lemma FilesArePrefixChain(lines: seq<string>, m: Markup)
    ensures var files := Convert(lines, m);
      forall j, k :: 0 <= j < k < |files| ==> files[j].content <= files[k].content
  {
    forall st: State, line: string | Accumulates(st)
      ensures Accumulates(Step(st, line, m))
    {
      StepAccumulates(st, line, m);
    }
    FoldInduction(Init, StepWith(m), (ls: seq<string>, st: State) => Accumulates(st), lines);
  }

  /** While the loop runs, the written files are the `.html` ones of the
      pages before the open one. */
  ghost predicate HtmlSoFar(st: State) {
    && |st.written| == (if st.outputCount == 0 then 0 else st.outputCount - 1)
    && forall k :: 0 <= k < |st.written| ==> st.written[k].name == Html(k + 1)
  }

  /** One file per `#` line: `htmls\1.html` to `htmls\{n-1}.html` in order,
      then `output_{n}.txt` holding the whole final buffer, without the
      closing markup; no `#` line, no file. */
  lemma FileNames(lines: seq<string>, m: Markup)
    ensures var files, n := Convert(lines, m), CountTitles(lines);
      && |files| == n
      && (forall k :: 0 <= k < n - 1 ==> files[k].name == Html(k + 1))
      && (n > 0 ==> files[n - 1] == OutFile(OutputTxt(n), Run(lines, m).current))
  {
    RunCounts(lines, m);
    forall st: State, line: string | HtmlSoFar(st)
      ensures HtmlSoFar(Step(st, line, m))
    {
    }
    FoldInduction(Init, StepWith(m), (ls: seq<string>, st: State) => HtmlSoFar(st), lines);
  }

  /** Without a `#` line no page is opened and nothing is written. */
  lemma NoTitleNoFiles(lines: seq<string>, m: Markup)
    requires forall i :: 0 <= i < |lines| ==> !IsTitleLine(lines[i])
    ensures Convert(lines, m) == []
  {
    NoTitleCountsZero(lines);
    FileNames(lines, m);
  }

  /** `p` begins the buffer and every file written so far. */
  ghost predicate Keeps(st: State, p: string) {
    p <= st.current && forall k :: 0 <= k < |st.written| ==> p <= st.written[k].content
  }

  lemma StepKeeps(st: State, line: string, m: Markup, p: string)
    requires Keeps(st, p)
    ensures Keeps(Step(st, line, m), p)
  {
    var r := Step(st, line, m);
    PrefixTransitive(p, st.current, r.current);
    forall k | 0 <= k < |r.written|
      ensures p <= r.written[k].content
    {
      if k < |st.written| {
        assert r.written[k] == st.written[k];
      } else {
        PrefixTransitive(p, st.current, st.current + m.pageClose);
      }
    }
  }

  /** The lines before the first `#` line stay at the start of every file. */
  lemma PreambleInEveryFile(pre: seq<string>, rest: seq<string>, m: Markup)
    requires forall i :: 0 <= i < |pre| ==> !IsTitleLine(pre[i])
    ensures var files := Convert(pre + rest, m);
      forall k :: 0 <= k < |files| ==> Run(pre, m).current <= files[k].content
  {
    var lines := pre + rest;
    var p := Run(pre, m).current;
    assert lines[..|pre|] == pre && lines[..|lines|] == lines;
    NoTitleNoFiles(pre, m);
    assert Run(pre, m).written == [] by {
      NoTitleCountsZero(pre);
      FileNames(pre, m);
    }
    forall st: State, line: string | Keeps(st, p)
      ensures Keeps(Step(st, line, m), p)
    {
      StepKeeps(st, line, m, p);
    }
    FoldInductionFrom(Init, StepWith(m), (ls: seq<string>, st: State) => Keeps(st, p), lines, |pre|, |lines|);
    var st, files := Run(lines, m), Convert(lines, m);
    forall k | 0 <= k < |files|
      ensures p <= files[k].content
    {
      if k < |st.written| {
        assert files[k] == st.written[k];
      }
    }
  }

  /** How a section line `a【h】b` splits when `a` holds no `【` and `h`
      neither bracket: the text before is `a` and the heading is `h`, both
      unstripped. */
  lemma SectionParts(a: string, h: string, b: string)
    requires '【' !in a && '【' !in h && '】' !in h
    ensures var line := a + ['【'] + h + ['】'] + b;
      && '【' in line && '】' in line
      && BeforeLeft(line) == a
      && Middle(line) == h
  {
    var line := a + ['【'] + h + ['】'] + b;
    var rest := h + ['】'] + b;
    assert line == a + ['【'] + rest;
    assert line[|a|] == '【' && line[|a| + 1 + |h|] == '】';
    BeforeStops(a, rest, '【');
    AfterPast(a, rest, '【');
    BeforeConcat(h + ['】'], b, '【');
    BeforeStops(h, Before(b, '【'), '】');
  }

  /** The text after `】` is dropped: two section lines that differ only
      after their heading's `】` change the state in the same way. */
  lemma TrailingTextDropped(st: State, a: string, h: string, b1: string, b2: string, m: Markup)
    requires '【' !in a && '【' !in h && '】' !in h
    requires !IsTitleLine(a + ['【'] + h + ['】'] + b1) && !IsTitleLine(a + ['【'] + h + ['】'] + b2)
    ensures Step(st, a + ['【'] + h + ['】'] + b1, m) == Step(st, a + ['【'] + h + ['】'] + b2, m)
  {
    SectionParts(a, h, b1);
    SectionParts(a, h, b2);
  }

  /** Every line that is neither a title nor a section, blank ones
      included, lands in the page as a line of its own. */
  lemma TextLineKept(st: State, line: string, m: Markup)
    requires !IsTitleLine(line) && !('【' in line && '】' in line)
    ensures Step(st, line, m).current == st.current + ReplaceNewlines(line) + "\n"
    ensures Step(st, line, m).written == st.written
  {
    assert st.current + (ReplaceNewlines(line) + "\n") == st.current + ReplaceNewlines(line) + "\n";
  }

  /** The title of a page is its whole `#` line stripped, `#` included,
      and the head carries it twice, in `<title>` and in the character
      display. */
  lemma TitleKeptWhole(st: State, line: string, m: Markup)
    requires IsTitleLine(line)
    ensures var t := Strip(line);
      && '#' in t
      && Step(st, line, m).current
         == (if st.outputCount > 0 then st.current + m.pageClose else st.current)
            + m.headOpen + t + m.headMiddle + t + m.headClose
  {
    StripKeeps(line, '#');
  }
}
