/**
  `parse_txt_to_target` of txt_to_html2.py: a line-by-line state machine
  that turns a marked-up text into one HTML page per `#` line. A `#` line
  closes and writes the page being built and opens a new one with the
  line's title; a line with `【` and `】` opens a section (closing the
  previous one); any other non-blank line is paragraph text.

  The conversion is defined for any `Markup`, the text it writes around the
  input; `Program` is the markup of the program itself, with its fixed
  fragments spelled out exactly and its long page head (a style sheet
  formatted around the title) given as a `HeadTemplate`.
 */
module TxtToHtml2 {
  import opened PyStr
  import opened LineLoop

  /** The page head with `.format(title=title)` applied, cut at its two
      `{title}` fields. */
  datatype HeadTemplate = HeadTemplate(beforeTitle: string, betweenTitles: string, afterTitle: string)

  /** Everything the converter writes that does not come from the input. */
  datatype Markup = Markup(
    head: HeadTemplate,
    docClose: string,         // closes the last section of a page
    footer: string,           // the related-characters block and the end of the page
    sectionClose: string,     // closes the previous section before a new one
    sectionOpen: string,      // opens a section, up to its heading
    headingClose: string,     // after the heading
    imageOpen: string,        // the image block, up to the image number
    imageClose: string,       // after the image number
    readingOpen: string)      // opens the section's reading paragraph

  const DocClose: string := "    </p>\n        </div>\n    </div>"
  const Footer: string :=
    "\n    <div class=\"section related-words\">\n        <h3>相关汉字</h3>\n        <div class=\"related-container\">\n"
    + "            {% for item in related_items %}\n            <div class=\"related-item\">\n"
    + "                <a href=\"{{ item.url }}\">{{ item.text }}</a>\n                <p>{{ item.desc }}</p>\n"
    + "            </div>\n            {% endfor %}\n        </div>\n    </div>\n</div>\n</body>\n</html>"
  const SectionClose: string := "    </p>\n                </div>\n            </div>"
  const SectionOpen: string := "\n            <div class=\"section\">\n                <h3>"
  const HeadingClose: string := "</h3>"
  const ImageOpen: string := "\n                <div style=\"text-align: center; margin: 15px 0;\">\n                    <img src=\""
  const ImageClose: string :=
    ".png\" style=\"max-width: 60%; height: auto; border-radius: 8px; box-shadow: 0 2px 4px rgba(0,0,0,0.1);\">\n                </div>"
  const ReadingOpen: string := "\n                <div class=\"reading\">\n                    <p>"

  /** The markup of txt_to_html2.py. */
  function Program(head: HeadTemplate): Markup {
    Markup(head, DocClose, Footer, SectionClose, SectionOpen, HeadingClose, ImageOpen, ImageClose, ReadingOpen)
  }

  /** The heading under which the character's image is shown. */
  const ShapeHeading: string := "形"

  /** A written file `htmls\{number}.html` and its content. */
  datatype OutFile = OutFile(number: nat, content: string)

  /** `output_count`, `current_str`, `conti` and the files written so far. */
  datatype State = State(outputCount: nat, current: string, conti: nat, written: seq<OutFile>)

  /** `[line.rstrip('\n') for line in f.readlines()]` */
  function Lines(raw: seq<string>): (r: seq<string>)
    ensures |r| == |raw|
    ensures forall i :: 0 <= i < |r| ==> r[i] == RStripChar(raw[i], '\n')
  {
    seq(|raw|, i requires 0 <= i < |raw| => RStripChar(raw[i], '\n'))
  }

  predicate IsTitleLine(line: string) {
    '#' in line
  }

  /** A section line: not a title, and holding both brackets. */
  predicate IsSectionLine(line: string) {
    !IsTitleLine(line) && '【' in line && '】' in line
  }

  /** `line.strip().lstrip('#').strip()` */
  function TitleOf(line: string): (r: string)
    ensures Trimmed(r) && |r| <= |line|
  {
    StripMeaning(LStripChar(Strip(line), '#'));
    Strip(LStripChar(Strip(line), '#'))
  }

  /** The title keeps every character of the line that is neither
      whitespace nor `#`. */
  lemma TitleKeepsText(line: string, c: char)
    requires c in line && !IsSpace(c) && c != '#'
    ensures c in TitleOf(line)
  {
    StripKeeps(line, c);
    LStripKeeps(Strip(line), '#', c);
    StripKeeps(LStripChar(Strip(line), '#'), c);
  }

  /** The page head for a title: the title goes into `<title>` and into the
      character display. */
  function Head(m: Markup, title: string): string {
    m.head.beforeTitle + title + m.head.betweenTitles + title + m.head.afterTitle
  }

  /** A finished page: its buffer, the last section's close and the footer. */
  function Closed(m: Markup, current: string): string {
    current + m.docClose + m.footer
  }

  /** `line.split('【')[0].strip()`: the trimmed text before the first `【`. */
  function Leading(line: string): (r: string)
    ensures Trimmed(r) && '【' !in r
  {
    BeforeMeaning(line, '【');
    StripMeaning(Before(line, '【'));
    StripAvoids(Before(line, '【'), '【');
    Strip(Before(line, '【'))
  }

  /** `line.split('【')[1].split('】')[0].strip()`: the trimmed text between
      the brackets, which holds neither bracket. */
  function Heading(line: string): (r: string)
    requires '【' in line
    ensures Trimmed(r) && '【' !in r && '】' !in r
  {
    var field := SecondField(line, '【');
    var inner := Before(field, '】');
    BeforeMeaning(After(line, '【'), '【');
    BeforeMeaning(field, '】');
    assert '【' !in inner by { assert inner == field[..|inner|]; }
    StripMeaning(inner);
    StripAvoids(inner, '【');
    StripAvoids(inner, '】');
    Strip(inner)
  }

  /** `line.split('】')[1].strip()`: the trimmed text after the first `】`,
      up to a second one. */
  function Trailing(line: string): (r: string)
    requires '】' in line
    ensures Trimmed(r) && '】' !in r
  {
    BeforeMeaning(After(line, '】'), '】');
    StripMeaning(SecondField(line, '】'));
    StripAvoids(SecondField(line, '】'), '】');
    Strip(SecondField(line, '】'))
  }

  /** `f"{s.replace('\n', '<br>')}<br>"` when `s` is not empty: nothing for
      empty text, otherwise a piece of markup without a raw newline. */
  function BrText(s: string): (r: string)
    ensures r == "" <==> s == ""
    ensures '\n' !in r
  {
    if s != "" then ReplaceNewlines(s) + "<br>" else ""
  }

  /** The image block of page `n`, `<img src="{output_count}.png" ...>`. */
  function ImageBlock(m: Markup, n: nat): string {
    m.imageOpen + NatToString(n) + m.imageClose
  }

  /** A `#` line: the open page, if any, is closed and written, and the
      page of the line's title is opened. */
  function TitleStep(st: State, line: string, m: Markup): (r: State)
    ensures r.outputCount == st.outputCount + 1 && r.conti == 0
    ensures r.current == Head(m, TitleOf(line))
    ensures |r.written| == |st.written| + (if st.outputCount > 0 then 1 else 0)
    ensures st.written <= r.written
    ensures st.outputCount > 0 ==> r.written[|st.written|] == OutFile(st.outputCount, Closed(m, st.current))
  {
    var written := if st.outputCount > 0 then st.written + [OutFile(st.outputCount, Closed(m, st.current))] else st.written;
    State(st.outputCount + 1, Head(m, TitleOf(line)), 0, written)
  }

  /** A section line `before【heading】after`: the previous section of the
      page, if one is open, is closed; the stripped text before the bracket
      becomes a line of its own, the heading opens the new section (with
      the page's image under the heading 形) and the stripped text after the
      bracket starts its reading. */
  function SectionStep(st: State, line: string, m: Markup): (r: State)
    requires '【' in line && '】' in line
    ensures r.outputCount == st.outputCount && r.written == st.written
    ensures r.conti == st.conti + 1
    ensures st.current <= r.current
  {
    var closed := if st.conti > 0 then st.current + m.sectionClose else st.current;
    var heading := Heading(line);
    var image := if heading == ShapeHeading then ImageBlock(m, st.outputCount) else "";
    var current := closed + BrText(Leading(line)) + m.sectionOpen + heading + m.headingClose + image
                   + m.readingOpen + BrText(Trailing(line));
    AppendsExtend(closed, BrText(Leading(line)), m.sectionOpen, heading, m.headingClose, image,
                  m.readingOpen, BrText(Trailing(line)));
    PrefixTransitive(st.current, closed, current);
    State(st.outputCount, current, st.conti + 1, st.written)
  }

  /** Any other line is appended, unstripped, as a line of text. */
  function TextStep(st: State, line: string): (r: State)
    ensures r.outputCount == st.outputCount && r.written == st.written && r.conti == st.conti
    ensures st.current <= r.current
  {
    State(st.outputCount, st.current + BrText(line), st.conti, st.written)
  }

  /** One iteration of the loop over the lines: blank lines are skipped. */
  function Step(st: State, line: string, m: Markup): (r: State)
    ensures IsBlank(line) ==> r == st
    ensures r.outputCount == st.outputCount + (if IsTitleLine(line) then 1 else 0)
    ensures !IsTitleLine(line) ==> r.written == st.written && st.current <= r.current
    ensures r.conti == if IsTitleLine(line) then 0 else if IsSectionLine(line) then st.conti + 1 else st.conti
  {
    if IsBlank(line) then
      assert !IsSectionLine(line) by {
        if '【' in line {
          NotBlank(line, '【');
        }
      }
      st
    else if IsTitleLine(line) then TitleStep(st, line, m)
    else if '【' in line && '】' in line then SectionStep(st, line, m)
    else TextStep(st, line)
  }

  const Init: State := State(0, "", 0, [])

  /** `Step` for the markup `m`, as the loop's step function. */
  function StepWith(m: Markup): (State, string) -> State {
    (st, line) => Step(st, line, m)
  }

  /** The state after the loop has consumed `lines`. */
  function Run(lines: seq<string>, m: Markup): State {
    Fold(Init, StepWith(m), lines)
  }

  /** After the loop: the last page is closed and written, if there is one. */
  function Finish(st: State, m: Markup): seq<OutFile> {
    if st.outputCount > 0 then st.written + [OutFile(st.outputCount, Closed(m, st.current))] else st.written
  }

  /** The files written for the (right-stripped) lines, in order. */
  function Convert(lines: seq<string>, m: Markup): seq<OutFile> {
    Finish(Run(lines, m), m)
  }

  /** The section branch of the loop: what a section line appends to the
      open page. */
  method AppendSection(st: State, line: string, m: Markup) returns (current: string)
    requires '【' in line && '】' in line
    ensures current == SectionStep(st, line, m).current
  {
    current := st.current;
    if st.conti > 0 {
      current := current + m.sectionClose;
    }
    var beforeLeft := Strip(Before(line, '【'));
    var middle := Strip(Before(SecondField(line, '【'), '】'));
    var afterRight := Strip(SecondField(line, '】'));
    assert beforeLeft == Leading(line) && middle == Heading(line) && afterRight == Trailing(line);
    ghost var closed := current;
    ghost var introduced := current + BrText(beforeLeft);
    if beforeLeft != "" {
      current := current + (ReplaceNewlines(beforeLeft) + "<br>");
    } else {
      assert current + "" == current;
    }
    assert current == introduced;
    current := current + m.sectionOpen + middle + m.headingClose;
    ghost var headed := current + if middle == ShapeHeading then ImageBlock(m, st.outputCount) else "";
    if middle == ShapeHeading {
      current := current + (m.imageOpen + NatToString(st.outputCount) + m.imageClose);
    } else {
      assert current + "" == current;
    }
    assert current == headed;
    current := current + m.readingOpen;
    ghost var read := current + BrText(afterRight);
    if afterRight != "" {
      current := current + (ReplaceNewlines(afterRight) + "<br>");
    } else {
      assert current + "" == current;
    }
    assert current == read;
    assert read == closed + BrText(Leading(line)) + m.sectionOpen + Heading(line) + m.headingClose
                   + (if Heading(line) == ShapeHeading then ImageBlock(m, st.outputCount) else "")
                   + m.readingOpen + BrText(Trailing(line));
  }

  /** The title branch of the loop: the open page, if any, is closed and
      written, and the new page starts with the head of the line's title. */
  method StartPage(st: State, line: string, m: Markup) returns (current: string, written: seq<OutFile>)
    ensures current == TitleStep(st, line, m).current && written == TitleStep(st, line, m).written
  {
    current, written := st.current, st.written;
    if st.outputCount > 0 {
      current := current + m.docClose;
      current := current + m.footer;
      written := written + [OutFile(st.outputCount, current)];
    }
    var title := Strip(LStripChar(Strip(line), '#'));
    current := m.head.beforeTitle + title + m.head.betweenTitles + title + m.head.afterTitle;
  }

  /** The body of the loop over the lines: blank lines are skipped, then
      the title branch, the section branch, or the line as text. */
  method HandleLine(outputCount: nat, current: string, conti: nat, files: seq<OutFile>, line: string, m: Markup)
    returns (outputCount': nat, current': string, conti': nat, files': seq<OutFile>)
    ensures State(outputCount', current', conti', files') == Step(State(outputCount, current, conti, files), line, m)
  {
    outputCount', current', conti', files' := outputCount, current, conti, files;
    var lineStripped := Strip(line);
    StripMeaning(line);
    if lineStripped == "" {
      return;
    }
    if '#' in line {
      current', files' := StartPage(State(outputCount, current, conti, files), line, m);
      outputCount' := outputCount + 1;
      conti' := 0;
      return;
    }
    if '【' in line && '】' in line {
      current' := AppendSection(State(outputCount, current, conti, files), line, m);
      conti' := conti + 1;
      return;
    }
    current' := current + (ReplaceNewlines(line) + "<br>");
  }

  /** `parse_txt_to_target(input_txt_path)`, with the file's `readlines()`
      as input and the written files, in order, as output. */
  method ParseTxtToTarget(rawLines: seq<string>, head: HeadTemplate) returns (files: seq<OutFile>)
    ensures files == Convert(Lines(rawLines), Program(head))
  {
    var m := Program(head);
    var lines := Lines(rawLines);
    var outputCount: nat := 0;
    var current := "";
    var conti: nat := 0;
    files := [];
    for i := 0 to |lines|
      invariant State(outputCount, current, conti, files) == Run(lines[..i], m)
    {
      FoldNext(Init, StepWith(m), lines, i);
      outputCount, current, conti, files := HandleLine(outputCount, current, conti, files, lines[i], m);
    }
    assert lines[..|lines|] == lines;
    if outputCount > 0 {
      current := current + m.docClose;
      current := current + m.footer;
      files := files + [OutFile(outputCount, current)];
    }
  }

  // ---------------------------------------------------------------------
  // Properties of the conversion

  /** A line holding a character that is not whitespace is not blank. */
  lemma NotBlank(line: string, c: char)
    requires c in line && !IsSpace(c)
    ensures !IsBlank(line)
  {
    var i :| 0 <= i < |line| && line[i] == c;
  }

  lemma RunSnoc(lines: seq<string>, line: string, m: Markup)
    ensures Run(lines + [line], m) == Step(Run(lines, m), line, m)
  {
    FoldSnoc(Init, StepWith(m), lines, line);
  }

  /** The lines that are not blank, in order. */
  function NonBlank(lines: seq<string>): (r: seq<string>)
    ensures |r| <= |lines|
  {
    if |lines| == 0 then []
    else NonBlank(lines[..|lines| - 1]) + (if IsBlank(lines[|lines| - 1]) then [] else [lines[|lines| - 1]])
  }

  /** Lines that are empty after `strip()` are ignored entirely: dropping
      them changes nothing. */
  lemma BlankLinesIgnored(lines: seq<string>, m: Markup)
    ensures Run(NonBlank(lines), m) == Run(lines, m)
  {
    forall ls: seq<string>, st: State, line: string | Run(NonBlank(ls), m) == st
      ensures Run(NonBlank(ls + [line]), m) == Step(st, line, m)
    {
      assert (ls + [line])[..|ls|] == ls;
      if IsBlank(line) {
        assert NonBlank(ls + [line]) == NonBlank(ls) + [];
        assert NonBlank(ls) + [] == NonBlank(ls);
      } else {
        RunSnoc(NonBlank(ls), line, m);
      }
    }
    assert NonBlank([]) == [] && Run([], m) == Init;
    FoldInduction(Init, StepWith(m), (ls: seq<string>, st: State) => Run(NonBlank(ls), m) == st, lines);
  }

  /** The titles of the `#` lines, in order. */
  function Titles(lines: seq<string>): seq<string> {
    if |lines| == 0 then []
    else
      var init, last := lines[..|lines| - 1], lines[|lines| - 1];
      Titles(init) + (if IsTitleLine(last) then [TitleOf(last)] else [])
  }

  /** `s` ends with `suffix`. */
  predicate EndsWith(s: string, suffix: string) {
    |suffix| <= |s| && s[|s| - |suffix|..] == suffix
  }

  lemma ClosedEnds(m: Markup, current: string)
    ensures EndsWith(Closed(m, current), m.docClose + m.footer)
  {
    var c := Closed(m, current);
    assert c == current + (m.docClose + m.footer);
  }

  /** The shape of the state after any prefix of the input: one page per
      `#` line so far; all but the last written, numbered from 1, each
      starting with the head of its own title and ending with the closing
      markup; and the open page starting with the head of the last title. */
  ghost predicate Shaped(st: State, titles: seq<string>, m: Markup) {
    && st.outputCount == |titles|
    && |st.written| == (if |titles| == 0 then 0 else |titles| - 1)
    && (forall k :: 0 <= k < |st.written| ==>
          st.written[k].number == k + 1
          && Head(m, titles[k]) <= st.written[k].content
          && EndsWith(st.written[k].content, m.docClose + m.footer))
    && (|titles| > 0 ==> Head(m, titles[|titles| - 1]) <= st.current)
  }

  /** Closing a page keeps what it starts with. */
  lemma ClosedExtends(m: Markup, start: string, current: string)
    requires start <= current
    ensures start <= Closed(m, current)
  {
    AppendsExtend(current, m.docClose, m.footer, "", "", "", "", "");
    assert current + m.docClose + m.footer + "" + "" + "" + "" + "" == Closed(m, current);
    PrefixTransitive(start, current, Closed(m, current));
  }

  /** A `#` line closes and writes the open page, if any, and opens the
      page of its title. */
  lemma TitleStepShaped(st: State, titles: seq<string>, line: string, m: Markup)
    requires Shaped(st, titles, m) && IsTitleLine(line)
    ensures Shaped(TitleStep(st, line, m), titles + [TitleOf(line)], m)
  {
    var r, titles' := TitleStep(st, line, m), titles + [TitleOf(line)];
    forall k | 0 <= k < |r.written|
      ensures r.written[k].number == k + 1
      ensures Head(m, titles'[k]) <= r.written[k].content
      ensures EndsWith(r.written[k].content, m.docClose + m.footer)
    {
      assert titles'[k] == titles[k];
      if k < |st.written| {
        assert r.written[k] == st.written[k];
      } else {
        ClosedEnds(m, st.current);
        ClosedExtends(m, Head(m, titles[|titles| - 1]), st.current);
      }
    }
    assert titles'[|titles'| - 1] == TitleOf(line);
  }

  /** Any other line leaves the written pages alone and only appends to
      the open one. */
  lemma OtherStepShaped(st: State, titles: seq<string>, line: string, m: Markup)
    requires Shaped(st, titles, m) && !IsTitleLine(line)
    ensures Shaped(Step(st, line, m), titles, m)
  {
    var r := Step(st, line, m);
    assert r.written == st.written && r.outputCount == st.outputCount;
    if |titles| > 0 {
      PrefixTransitive(Head(m, titles[|titles| - 1]), st.current, r.current);
    }
  }

  /** Any line keeps the shape, with its title added when it has one. */
  lemma StepShaped(ls: seq<string>, st: State, line: string, m: Markup)
    requires Shaped(st, Titles(ls), m)
    ensures Shaped(Step(st, line, m), Titles(ls + [line]), m)
  {
    assert (ls + [line])[..|ls|] == ls;
    if IsTitleLine(line) {
      NotBlank(line, '#');
      TitleStepShaped(st, Titles(ls), line, m);
    } else {
      assert Titles(ls + [line]) == Titles(ls) + [] == Titles(ls);
      OtherStepShaped(st, Titles(ls), line, m);
    }
  }

  lemma RunShaped(lines: seq<string>, m: Markup)
    ensures Shaped(Run(lines, m), Titles(lines), m)
  {
    forall ls: seq<string>, st: State, line: string | Shaped(st, Titles(ls), m)
      ensures Shaped(Step(st, line, m), Titles(ls + [line]), m)
    {
      StepShaped(ls, st, line, m);
    }
    assert Titles([]) == [];
    FoldInduction(Init, StepWith(m), (ls: seq<string>, st: State) => Shaped(st, Titles(ls), m), lines);
  }

  /** Exactly one file per `#` line is written, numbered 1, 2, ... in
      order; file k starts with the head holding the k-th title and ends
      with the closing markup. */
  lemma ConvertWritesOnePagePerTitle(lines: seq<string>, m: Markup)
    ensures var files, titles := Convert(lines, m), Titles(lines);
      && |files| == |titles|
      && forall k :: 0 <= k < |files| ==>
           files[k].number == k + 1
           && Head(m, titles[k]) <= files[k].content
           && EndsWith(files[k].content, m.docClose + m.footer)
  {
    RunShaped(lines, m);
    var st, files, titles := Run(lines, m), Convert(lines, m), Titles(lines);
    forall k | 0 <= k < |files|
      ensures files[k].number == k + 1
      ensures Head(m, titles[k]) <= files[k].content
      ensures EndsWith(files[k].content, m.docClose + m.footer)
    {
      if k < |st.written| {
        assert files[k] == st.written[k];
      } else {
        ClosedEnds(m, st.current);
        ClosedExtends(m, Head(m, titles[|titles| - 1]), st.current);
      }
    }
  }

  /** Lines without `#` have no titles. */
  lemma {:induction false} NoTitleNoTitles(lines: seq<string>)
    requires forall i :: 0 <= i < |lines| ==> !IsTitleLine(lines[i])
    ensures Titles(lines) == []
  {
    if |lines| > 0 {
      NoTitleNoTitles(lines[..|lines| - 1]);
    }
  }

  /** Without a `#` line no page is opened and no file is written. */
  lemma NoTitleNoFiles(lines: seq<string>, m: Markup)
    requires forall i :: 0 <= i < |lines| ==> !IsTitleLine(lines[i])
    ensures Run(lines, m).outputCount == 0 && Run(lines, m).written == []
    ensures Convert(lines, m) == []
  {
    NoTitleNoTitles(lines);
    RunShaped(lines, m);
  }

  /** Text before the first `#` line is never written: a preamble without
      `#` lines does not change the files produced from the rest. */
  lemma PreambleNeverWritten(pre: seq<string>, rest: seq<string>, m: Markup)
    requires forall i :: 0 <= i < |pre| ==> !IsTitleLine(pre[i])
    requires |rest| > 0 && IsTitleLine(rest[0])
    ensures Run(pre + rest, m) == Run(rest, m)
    ensures Convert(pre + rest, m) == Convert(rest, m)
  {
    var step, first, more := StepWith(m), rest[0], rest[1..];
    NoTitleNoFiles(pre, m);
    NotBlank(first, '#');
    assert Step(Run(pre, m), first, m) == Step(Init, first, m);
    assert rest == [first] + more;
    FoldAppend(Init, step, pre, rest);
    FoldFirst(Run(pre, m), step, first, more);
    FoldFirst(Init, step, first, more);
  }

  /** The lines after the last `#` line (all lines if there is none). */
  function SinceLastTitle(lines: seq<string>): (r: seq<string>)
    ensures forall i :: 0 <= i < |r| ==> !IsTitleLine(r[i])
  {
    if |lines| == 0 then []
    else
      var init, last := lines[..|lines| - 1], lines[|lines| - 1];
      if IsTitleLine(last) then [] else SinceLastTitle(init) + [last]
  }

  function CountSections(lines: seq<string>): nat {
    if |lines| == 0 then 0
    else CountSections(lines[..|lines| - 1]) + (if IsSectionLine(lines[|lines| - 1]) then 1 else 0)
  }

  /** `conti` counts the section lines since the last `#` line, so the
      section-closing markup goes before a section exactly when an earlier
      section of the same page is open. */
  lemma ContiCountsSections(lines: seq<string>, m: Markup)
    ensures Run(lines, m).conti == CountSections(SinceLastTitle(lines))
  {
    forall ls: seq<string>, st: State, line: string | st.conti == CountSections(SinceLastTitle(ls))
      ensures Step(st, line, m).conti == CountSections(SinceLastTitle(ls + [line]))
    {
      assert (ls + [line])[..|ls|] == ls;
      if !IsTitleLine(line) {
        var since := SinceLastTitle(ls);
        assert (since + [line])[..|since|] == since;
      }
    }
    assert CountSections(SinceLastTitle([])) == 0;
    FoldInduction(Init, StepWith(m), (ls: seq<string>, st: State) => st.conti == CountSections(SinceLastTitle(ls)), lines);
  }

  /** How a section line `a【h】b` splits when neither `a` nor `h` holds a
      bracket: the text before is `a`, the heading is `h`, and the text
      after is `b` only up to any further `】`, each stripped. */
  lemma SectionParts(a: string, h: string, b: string)
    requires '【' !in a && '】' !in a && '【' !in h && '】' !in h
    ensures var line := a + ['【'] + h + ['】'] + b;
      && '【' in line && '】' in line
      && Leading(line) == Strip(a)
      && Heading(line) == Strip(h)
      && Trailing(line) == Strip(Before(b, '】'))
  {
    var line := a + ['【'] + h + ['】'] + b;
    var rest := h + ['】'] + b;
    assert line == a + ['【'] + rest;
    assert line[|a|] == '【' && line[|a| + 1 + |h|] == '】';
    BeforeStops(a, rest, '【');
    AfterPast(a, rest, '【');
    BeforeConcat(h + ['】'], b, '【');
    BeforeStops(h, Before(b, '【'), '】');
    assert line == (a + ['【'] + h) + ['】'] + b;
    AfterPast(a + ['【'] + h, b, '】');
  }

  /** The image source names the page it is written into: different pages
      name different images. */
  lemma ImageNamesItsPage(m: Markup, i: nat, j: nat)
    requires ImageBlock(m, i) == ImageBlock(m, j)
    ensures i == j
  {
    var x, y := ImageBlock(m, i), ImageBlock(m, j);
    assert NatToString(i) == x[|m.imageOpen|..|x| - |m.imageClose|];
    assert NatToString(j) == y[|m.imageOpen|..|y| - |m.imageClose|];
    NatToStringInjective(i, j);
  }

  /** The image block follows a section's heading exactly when the heading
      is 形, and it names the page being built. */
  lemma ImageOnlyUnderShape(st: State, line: string, m: Markup)
    requires IsSectionLine(line)
    ensures var r := Step(st, line, m);
      var pre := (if st.conti > 0 then st.current + m.sectionClose else st.current)
                 + BrText(Leading(line)) + m.sectionOpen + Heading(line) + m.headingClose;
      && (Heading(line) == ShapeHeading ==> pre + ImageBlock(m, st.outputCount) + m.readingOpen <= r.current)
      && (Heading(line) != ShapeHeading ==> pre + m.readingOpen <= r.current)
  {
    NotBlank(line, '【');
    var pre := (if st.conti > 0 then st.current + m.sectionClose else st.current)
               + BrText(Leading(line)) + m.sectionOpen + Heading(line) + m.headingClose;
    var image := if Heading(line) == ShapeHeading then ImageBlock(m, st.outputCount) else "";
    AppendsExtend(pre + image + m.readingOpen, BrText(Trailing(line)), "", "", "", "", "", "");
    assert pre + "" == pre;
  }
}
