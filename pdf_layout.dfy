/** bktest/template/pdf.py, the parts that do not draw: cutting a text
    into runs, the order in which elements are drawn, breaking a text into
    lines, and the vertical space left between lines.  The width of a
    string in a font is a parameter. */
module PdfLayout {
  import opened Wrappers
  import opened Sorting
  import opened TemplateModels

  /** The groupby key of _split_words: 1 for a space, 2 for a newline, 0
      for any other character. */
  function Class(c: char): int {
    if c == ' ' then 1 else if c == '\n' then 2 else 0
  }

  /** Every character of the run is of one class. */
  predicate Uniform(run: string) {
    forall j :: 0 <= j < |run| ==> Class(run[j]) == Class(run[0])
  }

  /** Where the run of characters of s[i]'s class that starts at i ends. */
  function RunEnd(s: string, i: nat): (e: nat)
    requires i < |s|
    ensures i < e <= |s|
    ensures forall j :: i <= j < e ==> Class(s[j]) == Class(s[i])
    ensures e < |s| ==> Class(s[e]) != Class(s[i])
    decreases |s| - i
  {
    if i + 1 == |s| || Class(s[i + 1]) != Class(s[i]) then i + 1 else RunEnd(s, i + 1)
  }

  function Concat(runs: seq<(int, string)>): string {
    if runs == [] then [] else runs[0].1 + Concat(runs[1..])
  }

  /** _split_words(text), from index i on: (index, run) for each maximal
      run of spaces, of newlines or of other characters.  There are runs
      when there is text left, and the first starts at i. */
  function SplitFrom(s: string, i: nat): (r: seq<(int, string)>)
    requires i <= |s|
    ensures r == [] <==> i == |s|
    ensures r != [] ==> r[0].0 == i
    decreases |s| - i
  {
    if i == |s| then []
    else
      var e := RunEnd(s, i);
      [(i, s[i..e])] + SplitFrom(s, e)
  }

  /** _split_words(text). */
  function SplitWords(s: string): (r: seq<(int, string)>)
    ensures r == [] <==> s == []
    ensures From(r, 0)
  {
    SplitFromBounds(s, 0);
    SplitFrom(s, 0)
  }

  /** No run is empty, and none starts before i. */
  predicate From(runs: seq<(int, string)>, i: int) {
    forall k :: 0 <= k < |runs| ==> runs[k].1 != [] && runs[k].0 >= i
  }

  /** No run of _split_words is empty, and none starts before i. */
  lemma {:induction false} SplitFromBounds(s: string, i: nat)
    requires i <= |s|
    ensures From(SplitFrom(s, i), i)
    decreases |s| - i
  {
    if i < |s| {
      var e := RunEnd(s, i);
      var rest := SplitFrom(s, e);
      SplitFromBounds(s, e);
      var r := [(i, s[i..e])] + rest;
      assert SplitFrom(s, i) == r && |r[0].1| == e - i;
      forall k | 0 <= k < |r|
        ensures r[k].1 != [] && r[k].0 >= i
      {
        if k > 0 {
          assert r[k] == rest[k - 1];
        }
      }
    }
  }

  /** Each run starts where the one before it ends. */
  predicate Contiguous(runs: seq<(int, string)>) {
    |runs| <= 1 || (runs[1].0 == runs[0].0 + |runs[0].1| && Contiguous(runs[1..]))
  }

  /** Each run of _split_words starts where the one before it ends. */
  lemma {:induction false} SplitFromIndices(s: string, i: nat)
    requires i <= |s|
    ensures Contiguous(SplitFrom(s, i))
    decreases |s| - i
  {
    if i < |s| {
      var e := RunEnd(s, i);
      var rest := SplitFrom(s, e);
      SplitFromIndices(s, e);
      var r := [(i, s[i..e])] + rest;
      assert SplitFrom(s, i) == r && r[1..] == rest;
    }
  }

  /** The runs of _split_words give the text back. */
  lemma {:induction false} SplitFromConcat(s: string, i: nat)
    requires i <= |s|
    ensures Concat(SplitFrom(s, i)) == s[i..]
    decreases |s| - i
  {
    if i < |s| {
      var e := RunEnd(s, i);
      var rest := SplitFrom(s, e);
      SplitFromConcat(s, e);
      var r := [(i, s[i..e])] + rest;
      assert SplitFrom(s, i) == r && r[1..] == rest;
      assert s[i..] == s[i..e] + s[e..];
    }
  }

  /** Each run is non-empty and of one class, and differs in class from
      the next: no run could be longer. */
  predicate Maximal(runs: seq<(int, string)>) {
    runs == [] ||
    (runs[0].1 != [] && Uniform(runs[0].1) &&
     (|runs| > 1 ==> runs[1].1 != [] && Class(runs[0].1[0]) != Class(runs[1].1[0])) &&
     Maximal(runs[1..]))
  }

  /** Each run of _split_words holds one class, and neighbouring runs
      differ in class. */
  lemma {:induction false} SplitFromClasses(s: string, i: nat)
    requires i <= |s|
    ensures Maximal(SplitFrom(s, i))
    decreases |s| - i
  {
    if i < |s| {
      var e := RunEnd(s, i);
      var rest := SplitFrom(s, e);
      SplitFromClasses(s, e);
      var r := [(i, s[i..e])] + rest;
      assert SplitFrom(s, i) == r && r[1..] == rest;
      assert r[0].1[0] == s[i] && Uniform(r[0].1);
      if rest != [] {
        assert r[1].1 == s[e..RunEnd(s, e)];
      }
    }
  }

  /** How many newline characters a string holds. */
  function Newlines(s: string): nat {
    if s == [] then 0 else (if s[0] == '\n' then 1 else 0) + Newlines(s[1..])
  }

  lemma {:induction false} NewlinesAppend(a: string, b: string)
    ensures Newlines(a + b) == Newlines(a) + Newlines(b)
    decreases |a|
  {
    if a == [] {
      assert a + b == b;
    } else {
      assert (a + b)[1..] == a[1..] + b;
      NewlinesAppend(a[1..], b);
    }
  }

  /** The total length of the newline runs. */
  function NewlineRuns(runs: seq<(int, string)>): nat {
    if runs == [] then 0 else (if runs[0].1 != [] && runs[0].1[0] == '\n' then |runs[0].1| else 0) + NewlineRuns(runs[1..])
  }

  /** The newline runs hold every newline of the text. */
  lemma {:induction false} NewlineRunsCount(s: string, i: nat)
    requires i <= |s|
    ensures NewlineRuns(SplitFrom(s, i)) == Newlines(s[i..])
    decreases |s| - i
  {
    if i < |s| {
      var e := RunEnd(s, i);
      var run := s[i..e];
      var rest := SplitFrom(s, e);
      NewlineRunsCount(s, e);
      NewlineRunsCons((i, run), rest);
      assert Newlines(s[i..]) == Newlines(run) + Newlines(s[e..]) by {
        assert s[i..] == run + s[e..];
        NewlinesAppend(run, s[e..]);
      }
      assert Uniform(run);
      UniformNewlines(run);
      assert SplitFrom(s, i) == [(i, run)] + rest;
    }
  }

  lemma NewlineRunsCons(run: (int, string), rest: seq<(int, string)>)
    ensures NewlineRuns([run] + rest) == (if run.1 != [] && run.1[0] == '\n' then |run.1| else 0) + NewlineRuns(rest)
  {
    assert ([run] + rest)[1..] == rest;
  }

  /** A run of one class has only newlines or none. */
  lemma {:induction false} UniformNewlines(run: string)
    requires run != [] && Uniform(run)
    ensures Newlines(run) == if run[0] == '\n' then |run| else 0
    decreases |run|
  {
    if |run| > 1 {
      assert Uniform(run[1..]) by {
        assert forall j :: 0 <= j < |run[1..]| ==> run[1..][j] == run[j + 1];
      }
      UniformNewlines(run[1..]);
    }
  }

  /** The runs that are words: neither spaces nor newlines. */
  function WordRuns(runs: seq<(int, string)>): seq<string> {
    if runs == [] then []
    else (if runs[0].1 != [] && Class(runs[0].1[0]) == 0 then [runs[0].1] else []) + WordRuns(runs[1..])
  }

  lemma {:induction false} WordRunsSnoc(runs: seq<(int, string)>, run: (int, string))
    ensures WordRuns(runs + [run]) == WordRuns(runs) + WordRuns([run])
    ensures NewlineRuns(runs + [run]) == NewlineRuns(runs) + NewlineRuns([run])
    decreases |runs|
  {
    if runs == [] {
      assert runs + [run] == [run];
    } else {
      assert (runs + [run])[1..] == runs[1..] + [run];
      WordRunsSnoc(runs[1..], run);
    }
  }

  /** The words and newlines of one more run. */
  lemma RunsPrefix(runs: seq<(int, string)>, i: int)
    requires 0 <= i < |runs|
    ensures WordRuns(runs[..i + 1]) == WordRuns(runs[..i]) + if runs[i].1 != [] && Class(runs[i].1[0]) == 0 then [runs[i].1] else []
    ensures NewlineRuns(runs[..i + 1]) == NewlineRuns(runs[..i]) + if runs[i].1 != [] && runs[i].1[0] == '\n' then |runs[i].1| else 0
  {
    assert runs[..i + 1] == runs[..i] + [runs[i]];
    WordRunsSnoc(runs[..i], runs[i]);
    WordRunsOne(runs[i]);
  }

  lemma WordRunsOne(run: (int, string))
    ensures WordRuns([run]) == if run.1 != [] && Class(run.1[0]) == 0 then [run.1] else []
    ensures NewlineRuns([run]) == if run.1 != [] && run.1[0] == '\n' then |run.1| else 0
  {
    assert [run][1..] == [];
  }

  datatype Word = Word(position: Rectangle2, content: string, font: Font, color: Color)

  datatype Line = Line(size: Vector2, words: seq<Word>)

  function SumWidths(words: seq<Word>): real {
    if words == [] then 0.0 else words[0].position.width + SumWidths(words[1..])
  }

  function MaxHeight(words: seq<Word>): real
    requires words != []
  {
    if |words| == 1 then words[0].position.height
    else
      var rest := MaxHeight(words[1..]);
      if words[0].position.height >= rest then words[0].position.height else rest
  }

  /** commit_line: the words so far as a line as wide as they are together
      and as high as the highest, or `minHeight` high when there are none. */
  function CommitLine(words: seq<Word>, minHeight: real): (r: Line)
    ensures r.words == words && r.size.x == SumWidths(words)
    ensures words == [] ==> r.size.y == minHeight
    ensures forall w :: w in words ==> w.position.height <= r.size.y
  {
    if words == [] then Line(Vector2(0.0, minHeight), words)
    else
      MaxHeightBounds(words);
      Line(Vector2(SumWidths(words), MaxHeight(words)), words)
  }

  lemma {:induction false} MaxHeightBounds(words: seq<Word>)
    requires words != []
    ensures forall w :: w in words ==> w.position.height <= MaxHeight(words)
    decreases |words|
  {
    if |words| > 1 {
      MaxHeightBounds(words[1..]);
      assert forall w :: w in words ==> w == words[0] || w in words[1..];
    }
  }

  /** A line's size is what commit_line gives its words. */
  predicate Sized(line: Line) {
    line.size.x == SumWidths(line.words) && (line.words != [] ==> line.size.y == MaxHeight(line.words))
  }

  function Contents(words: seq<Word>): seq<string> {
    if words == [] then [] else [words[0].content] + Contents(words[1..])
  }

  lemma {:induction false} ContentsAppend(a: seq<Word>, b: seq<Word>)
    ensures Contents(a + b) == Contents(a) + Contents(b)
    decreases |a|
  {
    if a == [] {
      assert a + b == b;
    } else {
      assert (a + b)[1..] == a[1..] + b;
      ContentsAppend(a[1..], b);
    }
  }

  /** The words of the lines, line after line. */
  function LineContents(lines: seq<Line>): seq<string> {
    if lines == [] then [] else LineContents(lines[..|lines| - 1]) + Contents(lines[|lines| - 1].words)
  }

  /** A word starts its line, or ends within the box's width and the two
      points of slack. */
  predicate Fits(w: Word, boxWidth: real) {
    w.position.x == 0.0 || w.position.x + w.position.width <= boxWidth + 2.0
  }

  predicate AllFit(words: seq<Word>, boxWidth: real) {
    forall w :: w in words ==> Fits(w, boxWidth)
  }

  /** Every line sized by commit_line, every word fitting. */
  predicate LaidOut(lines: seq<Line>, boxWidth: real) {
    forall line :: line in lines ==> Sized(line) && AllFit(line.words, boxWidth)
  }

  /** The index of the first span that starts after `start`, or the number
      of spans. */
  function FirstAfter(spans: seq<Span>, start: int): (k: int)
    ensures 0 <= k <= |spans|
    ensures forall i :: 0 <= i < k ==> spans[i].start <= start
    ensures k < |spans| ==> spans[k].start > start
  {
    if spans == [] || spans[0].start > start then 0
    else 1 + FirstAfter(spans[1..], start)
  }

  /** The first span covers the text's start: once the first run finds a
      span, every later run does. */
  predicate SpansFromStart(spans: seq<Span>) {
    spans != [] && spans[0].start <= 0
  }

  /** What find_span raises with no span at all, and with none before the
      start. */
  const NoIndex: string := "cannot access local variable 'index' where it is not associated with a value"
  const NoSpan: string := "'NoneType' object has no attribute 'color'"

  /** find_span: the span before the first that starts after `start`, and
      the index the loop stopped at.  With no span at all the index was
      never bound; with the first span starting later there is no span,
      and reading its colour fails. */
  method FindSpan(spans: seq<Span>, start: int) returns (r: Result<(Span, int)>)
    ensures spans == [] ==> r == Err(NameError(NoIndex))
    ensures spans != [] && FirstAfter(spans, start) == 0 ==> r == Err(AttributeError(NoSpan))
    ensures spans != [] && FirstAfter(spans, start) > 0 ==>
      var k := FirstAfter(spans, start);
      r == Ok((spans[k - 1], if k < |spans| then k else |spans| - 1))
    ensures start >= 0 && SpansFromStart(spans) ==> r.Ok?
    ensures start == 0 ==> (r.Ok? <==> SpansFromStart(spans))
    ensures r.Err? ==> r.error == if spans == [] then NameError(NoIndex) else AttributeError(NoSpan)
    ensures r.Ok? ==> start >= 0 && SpansFromStart(spans) ==> r.value.0 == SpanAt(spans, start)
  {
    if spans == [] {
      return Err(NameError(NoIndex));
    }
    var previous: Option<Span> := None;
    var index := 0;
    while index < |spans|
      invariant 0 <= index <= |spans| && index <= FirstAfter(spans, start)
      invariant previous == if index == 0 then None else Some(spans[index - 1])
    {
      if spans[index].start > start {
        break;
      }
      previous := Some(spans[index]);
      index := index + 1;
    }
    if previous.None? {
      return Err(AttributeError(NoSpan));
    }
    if index == |spans| {
      index := |spans| - 1;
    }
    return Ok((previous.value, index));
  }

  /** The state of _compute_lines between two runs: the lines committed,
      the words of the current line, the pen position and the height of the
      last run's font. */
  datatype Layout = Layout(lines: seq<Line>, words: seq<Word>, x: real, y: real, spanHeight: real)

  /** The span a run that starts at `start` takes its font and colour from:
      the last one starting at or before it. */
  function SpanAt(spans: seq<Span>, start: int): (r: Span)
    requires start >= 0 && SpansFromStart(spans)
    ensures r in spans && r.start <= start
  {
    var k := FirstAfter(spans, start);
    spans[k - 1]
  }

  function RunFont(text: Element, span: Span): Font
    requires text.Text?
  {
    if span.font.Some? then span.font.value else text.font
  }

  function RunColor(text: Element, span: Span): Color
    requires text.Text?
  {
    if span.color.Some? then span.color.value else text.color
  }

  /** Whether a word `width` wide that would start at pen position `x` ends
      past the box's width and the two points of slack. */
  predicate Overflows(x: real, width: real, boxWidth: real) {
    x + width > boxWidth + 2.0
  }

  /** The rule of _compute_lines for one run in `font`: a newline run of k
      characters commits k lines, the first with the words so far, and
      brings the pen back to the left edge k font sizes lower; a space run
      moves the pen right by a space's width per space; a word goes at the
      pen, unless it would end past the box's width plus 2, in which case
      the current line is committed and the word starts the next line at
      the left edge. */
  function Place(st: Layout, run: string, font: Font, color: Color, spaceSize: real, boxWidth: real,
                 stringWidth: (Font, string) -> real): Layout
    requires run != []
  {
    if run[0] == '\n' then AfterNewlines(st, |run|, font.size)
    else if run[0] == ' ' then AfterSpaces(st, |run|, spaceSize, font.size)
    else AfterWord(st, run, font, color, stringWidth(font, run), boxWidth)
  }

  /** A newline run of `count` characters in a font `h` high. */
  function AfterNewlines(st: Layout, count: nat, h: real): Layout
    requires count >= 1
  {
    Layout(st.lines + [CommitLine(st.words, h)] + EmptyLines(count - 1, h), [], 0.0, st.y + h * count as real, h)
  }

  /** A space run of `count` spaces in a font `h` high. */
  function AfterSpaces(st: Layout, count: nat, spaceSize: real, h: real): Layout {
    Layout(st.lines, st.words, st.x + spaceSize * count as real, st.y, h)
  }

  /** A word `width` wide in `font`: at the pen, or on a new line when it
      overflows there. */
  function AfterWord(st: Layout, word: string, font: Font, color: Color, width: real, boxWidth: real): Layout {
    var h := font.size;
    if Overflows(st.x, width, boxWidth) then
      Layout(st.lines + [CommitLine(st.words, h)], [Word(Rectangle2(0.0, st.y + h, width, h), word, font, color)],
             width, st.y + h, h)
    else
      Layout(st.lines, st.words + [Word(Rectangle2(st.x, st.y, width, h), word, font, color)], st.x + width, st.y, h)
  }

  /** The runs are what _split_words yields: non-empty, from index 0 on,
      and found a span when there are any. */
  predicate Placeable(text: Element, runs: seq<(int, string)>) {
    text.Text? && From(runs, 0) && (runs != [] ==> SpansFromStart(text.spans))
  }

  /** The state of _compute_lines after the given runs, each in the font
      and colour of its span. */
  function LayOutPrefix(text: Element, runs: seq<(int, string)>, stringWidth: (Font, string) -> real): Layout
    requires Placeable(text, runs)
    decreases |runs|
  {
    if runs == [] then Layout([], [], 0.0, 0.0, 0.0)
    else
      var last := runs[|runs| - 1];
      var span := SpanAt(text.spans, last.0);
      Place(LayOutPrefix(text, runs[..|runs| - 1], stringWidth), last.1, RunFont(text, span), RunColor(text, span),
            stringWidth(text.font, " "), text.position.width, stringWidth)
  }

  /** How many words of the runs did not fit where the pen was and began a
      new line. */
  function Wraps(text: Element, runs: seq<(int, string)>, stringWidth: (Font, string) -> real): nat
    requires Placeable(text, runs)
    decreases |runs|
  {
    if runs == [] then 0
    else
      var last := runs[|runs| - 1];
      var before := LayOutPrefix(text, runs[..|runs| - 1], stringWidth);
      var font := RunFont(text, SpanAt(text.spans, last.0));
      Wraps(text, runs[..|runs| - 1], stringWidth) +
        (if Class(last.1[0]) == 0 && Overflows(before.x, stringWidth(font, last.1), text.position.width) then 1 else 0)
  }

  /** What _compute_lines returns: the runs of the content laid out and the
      last line committed at the height of the last run's font; or the
      error of find_span for the first run. */
  function LinesOf(text: Element, stringWidth: (Font, string) -> real): (r: Result<seq<Line>>)
    requires text.Text?
    ensures r.Err? <==> text.content != [] && !SpansFromStart(text.spans)
  {
    var runs := SplitWords(text.content);
    if runs != [] && !SpansFromStart(text.spans) then
      Err(if text.spans == [] then NameError(NoIndex) else AttributeError(NoSpan))
    else
      SplitFromBounds(text.content, 0);
      var st := LayOutPrefix(text, runs, stringWidth);
      Ok(st.lines + [CommitLine(st.words, st.spanHeight)])
  }

  /** _compute_lines: the runs of the content laid out from left to right,
      as LinesOf says.  Besides: one line per newline and per wrapped word,
      plus the last; the lines hold the words of the text in order; no word
      ends past the box unless it starts its line. */
  method ComputeLines(text: Element, stringWidth: (Font, string) -> real) returns (r: Result<seq<Line>>)
    requires text.Text?
    ensures r == LinesOf(text, stringWidth)
    ensures r.Err? <==> text.content != [] && !SpansFromStart(text.spans)
    ensures r.Ok? ==> |r.value| == 1 + Newlines(text.content) + Wraps(text, SplitWords(text.content), stringWidth)
    ensures r.Ok? ==> LineContents(r.value) == WordRuns(SplitWords(text.content))
    ensures r.Ok? ==> LaidOut(r.value, text.position.width)
  {
    var runs := SplitWords(text.content);
    assert runs == SplitFrom(text.content, 0);
    SplitFromBounds(text.content, 0);
    r := LayOutRuns(text, runs, stringWidth);
    if r.Ok? {
      NewlineRunsCount(text.content, 0);
      assert text.content[0..] == text.content;
    }
  }

  /** The loop of _compute_lines over the runs of the content. */
  method LayOutRuns(text: Element, runs: seq<(int, string)>, stringWidth: (Font, string) -> real)
    returns (r: Result<seq<Line>>)
    requires text.Text? && From(runs, 0)
    requires runs != [] ==> runs[0].0 == 0
    ensures r.Err? <==> runs != [] && !SpansFromStart(text.spans)
    ensures r.Err? ==> r.error == if text.spans == [] then NameError(NoIndex) else AttributeError(NoSpan)
    ensures r.Ok? ==> var st := LayOutPrefix(text, runs, stringWidth); r.value == st.lines + [CommitLine(st.words, st.spanHeight)]
    ensures r.Ok? ==> |r.value| == 1 + NewlineRuns(runs) + Wraps(text, runs, stringWidth)
    ensures r.Ok? ==> LineContents(r.value) == WordRuns(runs)
    ensures r.Ok? ==> LaidOut(r.value, text.position.width)
  {
    var lines: seq<Line> := [];
    var words: seq<Word> := [];
    var spaceSize := stringWidth(text.font, " ");
    var x, y := 0.0, 0.0;
    var spanHeight := 0.0;
    var i := 0;
    while i < |runs|
      invariant 0 <= i <= |runs|
      invariant i > 0 ==> SpansFromStart(text.spans)
      invariant Placeable(text, runs[..i])
      invariant Layout(lines, words, x, y, spanHeight) == LayOutPrefix(text, runs[..i], stringWidth)
      invariant LineContents(lines) + Contents(words) == WordRuns(runs[..i])
      invariant |lines| == NewlineRuns(runs[..i]) + Wraps(text, runs[..i], stringWidth)
      invariant LaidOut(lines, text.position.width)
      invariant AllFit(words, text.position.width)
    {
      var index := runs[i].0;
      var found := FindSpan(text.spans, index);
      assert i == 0 ==> index == 0;
      if found.Err? {
        r := Err(found.error);
        return;
      }
      var (span, _) := found.value;
      lines, words, x, y, spanHeight := NextRun(text, runs, i, span, lines, words, x, y, spanHeight, spaceSize, stringWidth);
      i := i + 1;
    }
    assert runs[..|runs|] == runs;
    lines := Finish(text, runs, lines, words, x, y, spanHeight, stringWidth);
    r := Ok(lines);
  }

  /** After the loop: the last line committed at the height of the last
      run's font. */
  method Finish(text: Element, runs: seq<(int, string)>, lines: seq<Line>, words: seq<Word>, x: real, y: real,
                spanHeight: real, stringWidth: (Font, string) -> real)
    returns (r: seq<Line>)
    requires Placeable(text, runs)
    requires Layout(lines, words, x, y, spanHeight) == LayOutPrefix(text, runs, stringWidth)
    requires LineContents(lines) + Contents(words) == WordRuns(runs)
    requires |lines| == NewlineRuns(runs) + Wraps(text, runs, stringWidth)
    requires LaidOut(lines, text.position.width) && AllFit(words, text.position.width)
    ensures var st := LayOutPrefix(text, runs, stringWidth); r == st.lines + [CommitLine(st.words, st.spanHeight)]
    ensures |r| == 1 + NewlineRuns(runs) + Wraps(text, runs, stringWidth)
    ensures LineContents(r) == WordRuns(runs)
    ensures LaidOut(r, text.position.width)
  {
    r := Commit(lines, words, spanHeight, text.position.width);
  }

  /** The layout and the wraps after one more run, in the font and colour
      of its span. */
  lemma PrefixStep(text: Element, runs: seq<(int, string)>, i: int, stringWidth: (Font, string) -> real)
    requires text.Text? && From(runs, 0) && 0 <= i < |runs| && SpansFromStart(text.spans)
    ensures Placeable(text, runs[..i]) && Placeable(text, runs[..i + 1])
    ensures var span := SpanAt(text.spans, runs[i].0);
      var before := LayOutPrefix(text, runs[..i], stringWidth);
      var font := RunFont(text, span);
      LayOutPrefix(text, runs[..i + 1], stringWidth) ==
        Place(before, runs[i].1, font, RunColor(text, span), stringWidth(text.font, " "), text.position.width, stringWidth) &&
      Wraps(text, runs[..i + 1], stringWidth) == Wraps(text, runs[..i], stringWidth) +
        (if Class(runs[i].1[0]) == 0 && Overflows(before.x, stringWidth(font, runs[i].1), text.position.width) then 1 else 0)
  {
    assert runs[..i + 1][..i] == runs[..i];
    assert runs[..i + 1][i] == runs[i];
  }

  /** One pass of the loop of _compute_lines once the run's span is known:
      the run placed in the span's font and colour, and the loop's
      invariants carried over it. */
  method NextRun(text: Element, runs: seq<(int, string)>, i: int, span: Span,
                 lines: seq<Line>, words: seq<Word>, x: real, y: real, spanHeight: real,
                 spaceSize: real, stringWidth: (Font, string) -> real)
    returns (lines': seq<Line>, words': seq<Word>, x': real, y': real, spanHeight': real)
    requires text.Text? && From(runs, 0) && 0 <= i < |runs| && SpansFromStart(text.spans)
    requires span == SpanAt(text.spans, runs[i].0) && spaceSize == stringWidth(text.font, " ")
    requires Placeable(text, runs[..i])
    requires Layout(lines, words, x, y, spanHeight) == LayOutPrefix(text, runs[..i], stringWidth)
    requires LineContents(lines) + Contents(words) == WordRuns(runs[..i])
    requires |lines| == NewlineRuns(runs[..i]) + Wraps(text, runs[..i], stringWidth)
    requires LaidOut(lines, text.position.width) && AllFit(words, text.position.width)
    ensures Placeable(text, runs[..i + 1])
    ensures Layout(lines', words', x', y', spanHeight') == LayOutPrefix(text, runs[..i + 1], stringWidth)
    ensures LineContents(lines') + Contents(words') == WordRuns(runs[..i + 1])
    ensures |lines'| == NewlineRuns(runs[..i + 1]) + Wraps(text, runs[..i + 1], stringWidth)
    ensures LaidOut(lines', text.position.width) && AllFit(words', text.position.width)
  {
    var color := if span.color.Some? then span.color.value else text.color;
    var font := if span.font.Some? then span.font.value else text.font;
    PrefixStep(text, runs, i, stringWidth);
    ghost var wrapped;
    lines', words', x', y', spanHeight', wrapped := PlaceRun(lines, words, x, y, spanHeight, runs[i].1, font, color, spaceSize, text.position.width, stringWidth);
    RunPlaced(runs, i, lines, words, lines', words', Wraps(text, runs[..i], stringWidth), wrapped);
  }

  /** The loop invariants of _compute_lines carried over one more run. */
  lemma RunPlaced(runs: seq<(int, string)>, i: int, lines: seq<Line>, words: seq<Word>,
                  lines': seq<Line>, words': seq<Word>, wraps: nat, wrapped: nat)
    requires 0 <= i < |runs| && runs[i].1 != []
    requires LineContents(lines) + Contents(words) == WordRuns(runs[..i])
    requires |lines| == NewlineRuns(runs[..i]) + wraps
    requires LineContents(lines') + Contents(words') ==
      LineContents(lines) + Contents(words) + (if Class(runs[i].1[0]) == 0 then [runs[i].1] else [])
    requires |lines'| == |lines| + (if runs[i].1[0] == '\n' then |runs[i].1| else 0) + wrapped
    ensures LineContents(lines') + Contents(words') == WordRuns(runs[..i + 1])
    ensures |lines'| == NewlineRuns(runs[..i + 1]) + wraps + wrapped
  {
    RunsPrefix(runs, i);
  }

  /** One run of the text placed, in `font` and `color`: the body of the
      loop of _compute_lines, as Place says.  `wrapped` is 1 exactly when
      the run is a word that did not fit on the current line. */
  method PlaceRun(lines: seq<Line>, words: seq<Word>, x: real, y: real, spanHeight: real, word: string, font: Font,
                  color: Color, spaceSize: real, boxWidth: real, stringWidth: (Font, string) -> real)
    returns (lines': seq<Line>, words': seq<Word>, x': real, y': real, spanHeight': real, ghost wrapped: nat)
    requires word != []
    requires LaidOut(lines, boxWidth)
    requires AllFit(words, boxWidth)
    ensures Layout(lines', words', x', y', spanHeight') ==
      Place(Layout(lines, words, x, y, spanHeight), word, font, color, spaceSize, boxWidth, stringWidth)
    ensures wrapped == if Class(word[0]) == 0 && Overflows(x, stringWidth(font, word), boxWidth) then 1 else 0
    ensures LineContents(lines') + Contents(words') ==
      LineContents(lines) + Contents(words) + (if Class(word[0]) == 0 then [word] else [])
    ensures |lines'| == |lines| + (if word[0] == '\n' then |word| else 0) + wrapped
    ensures LaidOut(lines', boxWidth)
    ensures AllFit(words', boxWidth)
  {
    spanHeight' := font.size;
    if word[0] == '\n' {
      lines', words', x', y' := PlaceNewlines(lines, words, x, y, spanHeight, |word|, font.size, boxWidth);
      wrapped := 0;
    } else if word[0] == ' ' {
      lines', words', x', y', wrapped := lines, words, x + spaceSize * |word| as real, y, 0;
    } else {
      lines', words', x', y', wrapped := PlaceWord(lines, words, x, y, spanHeight, word, font, color, boxWidth, stringWidth);
    }
  }

  /** A word placed at the pen, or, when it would end past the box's width
      plus 2, at the left edge of a new line after committing the current
      one. */
  method PlaceWord(lines: seq<Line>, words: seq<Word>, x: real, y: real, spanHeight: real, word: string, font: Font,
                   color: Color, boxWidth: real, stringWidth: (Font, string) -> real)
    returns (lines': seq<Line>, words': seq<Word>, x': real, y': real, ghost wrapped: nat)
    requires word != [] && Class(word[0]) == 0
    requires LaidOut(lines, boxWidth)
    requires AllFit(words, boxWidth)
    ensures Layout(lines', words', x', y', font.size) ==
      AfterWord(Layout(lines, words, x, y, spanHeight), word, font, color, stringWidth(font, word), boxWidth)
    ensures wrapped == if Overflows(x, stringWidth(font, word), boxWidth) then 1 else 0
    ensures LineContents(lines') + Contents(words') == LineContents(lines) + Contents(words) + [word]
    ensures LaidOut(lines', boxWidth)
    ensures AllFit(words', boxWidth)
  {
    var spanHeight := font.size;
    lines', words', x', y', wrapped := lines, words, x, y, 0;
    var spanWidth := stringWidth(font, word);
    var nextX := x + spanWidth;
    if nextX > boxWidth + 2.0 {
      lines' := Commit(lines, words, spanHeight, boxWidth);
      words' := [];
      wrapped := 1;
      x' := 0.0;
      y' := y + spanHeight;
      nextX := spanWidth;
    }
    var placed := Word(Rectangle2(x', y', spanWidth, spanHeight), word, font, color);
    ContentsAppend(words', [placed]);
    assert Contents([placed]) == [word];
    words' := words' + [placed];
    x' := nextX;
  }

  /** `n` lines without words, each `minHeight` high. */
  function EmptyLines(n: nat, minHeight: real): (r: seq<Line>)
    ensures |r| == n
  {
    if n == 0 then [] else EmptyLines(n - 1, minHeight) + [CommitLine([], minHeight)]
  }

  /** A newline run of `count` characters in a font `h` high: the lines
      committed and the pen back at the left edge, `count` lines lower. */
  method PlaceNewlines(lines: seq<Line>, words: seq<Word>, x: real, y: real, spanHeight: real, count: nat, h: real,
                       boxWidth: real)
    returns (lines': seq<Line>, words': seq<Word>, x': real, y': real)
    requires count >= 1
    requires LaidOut(lines, boxWidth)
    requires AllFit(words, boxWidth)
    ensures Layout(lines', words', x', y', h) == AfterNewlines(Layout(lines, words, x, y, spanHeight), count, h)
    ensures LineContents(lines') + Contents(words') == LineContents(lines) + Contents(words)
    ensures |lines'| == |lines| + count
    ensures LaidOut(lines', boxWidth) && AllFit(words', boxWidth)
  {
    lines' := CommitNewlines(lines, words, count, h, boxWidth);
    words', x', y' := [], 0.0, y + h * count as real;
    assert Contents(words') == [];
  }

  /** A newline run: commit_line once per newline, the first time with
      the words so far. */
  method CommitNewlines(lines: seq<Line>, words: seq<Word>, count: nat, minHeight: real, boxWidth: real) returns (r: seq<Line>)
    requires count >= 1
    requires LaidOut(lines, boxWidth)
    requires AllFit(words, boxWidth)
    ensures r == lines + [CommitLine(words, minHeight)] + EmptyLines(count - 1, minHeight)
    ensures |r| == |lines| + count
    ensures LineContents(r) == LineContents(lines) + Contents(words)
    ensures LaidOut(r, boxWidth)
  {
    r := Commit(lines, words, minHeight, boxWidth);
    ghost var head := r;
    var k := 1;
    while k < count
      invariant 1 <= k <= count && |r| == |lines| + k
      invariant r == head + EmptyLines(k - 1, minHeight)
      invariant LineContents(r) == LineContents(lines) + Contents(words)
      invariant LaidOut(r, boxWidth)
    {
      SnocAssoc(head, EmptyLines(k - 1, minHeight), CommitLine([], minHeight));
      r := Commit(r, [], minHeight, boxWidth);
      k := k + 1;
    }
  }

  lemma SnocAssoc<T>(a: seq<T>, b: seq<T>, x: T)
    ensures (a + b) + [x] == a + (b + [x])
  {
  }

  /** commit_line applied to the list of lines. */
  method Commit(lines: seq<Line>, words: seq<Word>, minHeight: real, boxWidth: real) returns (r: seq<Line>)
    requires LaidOut(lines, boxWidth) && AllFit(words, boxWidth)
    ensures r == lines + [CommitLine(words, minHeight)]
    ensures LineContents(r) == LineContents(lines) + Contents(words)
    ensures LaidOut(r, boxWidth)
  {
    r := lines + [CommitLine(words, minHeight)];
    assert r[..|r| - 1] == lines;
  }

  /** The extra space of _render_text: the height the lines leave free in
      the box, shared among the gaps before, between and after them. */
  function ExtraSpace(boxHeight: real, lineHeights: seq<real>): (r: real)
    ensures r >= 0.0
    ensures HeightSum(lineHeights) <= boxHeight ==> HeightSum(lineHeights) + r * (|lineHeights| + 1) as real == boxHeight
    ensures HeightSum(lineHeights) >= boxHeight ==> r == 0.0
  {
    var free := if boxHeight - HeightSum(lineHeights) > 0.0 then boxHeight - HeightSum(lineHeights) else 0.0;
    free / (|lineHeights| + 1) as real
  }

  function HeightSum(heights: seq<real>): real {
    if heights == [] then 0.0 else heights[0] + HeightSum(heights[1..])
  }

  /** The font a text is drawn in once render has looked at it: a family
      the PDF already knows, or whose file exists, or that carries bytes,
      is kept; any other is replaced by the built-in "helvetica".
      `registered` says whether the lowered family is among the PDF's
      fonts and `fileExists` whether the font's file is on disk. */
  function ResolveFont(font: Font, registered: bool, fileExists: bool): (r: Font)
    ensures r.size == font.size && r.bytes == font.bytes
    ensures r.family == "helvetica" || r.family == font.family
    ensures r.family != font.family <==>
      font.family != "helvetica" && !registered && !fileExists && (font.bytes.None? || font.bytes.value == [])
  {
    if registered || fileExists then font
    else if font.bytes.Some? && font.bytes.value != [] then font
    else font.(family := "helvetica")
  }

  /** The right end of the rightmost word of a line, 0 for a line
      without words. */
  function LastX(words: seq<Word>): (r: real)
    ensures forall k :: 0 <= k < |words| ==> words[k].position.x + words[k].position.width <= r
    ensures words != [] ==> exists k :: 0 <= k < |words| && words[k].position.x + words[k].position.width == r
    ensures words == [] ==> r == 0.0
  {
    if words == [] then 0.0
    else
      var init := words[..|words| - 1];
      var w := words[|words| - 1];
      var end := w.position.x + w.position.width;
      var before := LastX(init);
      assert forall k :: 0 <= k < |init| ==> words[k] == init[k];
      if init == [] || end > before then end
      else
        assert exists k :: 0 <= k < |init| && init[k].position.x + init[k].position.width == before;
        before
  }

  /** Where _render_text draws the words of the line numbered `index`
      (lines are numbered from 1): shifted by the text's origin, moved
      down by `index` extra spaces, and, in a right-aligned text, moved
      right by the room the line leaves in the box. */
  function PlacedLine(startX: real, startY: real, words: seq<Word>, index: int, extraSpace: real,
                      right: bool, boxWidth: real): (r: seq<Rectangle2>)
    ensures |r| == |words|
    ensures forall k :: 0 <= k < |words| ==>
      r[k].width == words[k].position.width && r[k].height == words[k].position.height &&
      r[k].y == startY + words[k].position.y + index as real * extraSpace
    ensures !right ==> forall k :: 0 <= k < |words| ==> r[k].x == startX + words[k].position.x
    ensures right ==> forall k :: 0 <= k < |words| ==> r[k].x - words[k].position.x == r[0].x - words[0].position.x
  {
    var offset := if right then boxWidth - LastX(words) else 0.0;
    seq(|words|, k requires 0 <= k < |words| =>
      var p := words[k].position;
      Rectangle2(startX + p.x + offset, startY + p.y + index as real * extraSpace, p.width, p.height))
  }

  /** In a right-aligned text every word of a line ends within the box,
      and the rightmost one ends exactly at its right edge. */
  lemma {:induction false} RightAligned(startX: real, startY: real, words: seq<Word>, index: int, extraSpace: real, boxWidth: real)
    requires words != []
    ensures var r := PlacedLine(startX, startY, words, index, extraSpace, true, boxWidth);
      (forall k :: 0 <= k < |r| ==> r[k].x + r[k].width <= startX + boxWidth) &&
      exists k :: 0 <= k < |r| && r[k].x + r[k].width == startX + boxWidth
  {
    var r := PlacedLine(startX, startY, words, index, extraSpace, true, boxWidth);
    var last := LastX(words);
    assert forall k :: 0 <= k < |r| ==> r[k].x == startX + words[k].position.x + (boxWidth - last);
    var k :| 0 <= k < |words| && words[k].position.x + words[k].position.width == last;
    assert r[k].x + r[k].width == startX + boxWidth;
  }

  /** The class names the priorities are keyed by. */
  function ClassName(e: Element): (r: string)
    ensures r in {"shape", "text", "image"}
  {
    match e
    case Shape(_, _, _, _, _, _) => "shape"
    case Text(_, _, _, _, _, _, _, _) => "text"
    case Image(_, _, _, _, _) => "image"
  }

  /** DEFAULT_PRIORITIES */
  const DefaultPriorities: map<string, int> := map["text" := 50, "shape" := -20, "image" := 10]

  /** An element with its `_index`, the position it had on its page. */
  type Indexed = (Element, int)

  function WithIndices(elements: seq<Element>): (r: seq<Indexed>)
    ensures |r| == |elements| && forall i :: 0 <= i < |r| ==> r[i] == (elements[i], i)
  {
    seq(|elements|, i requires 0 <= i < |elements| => (elements[i], i))
  }

  /** The sort key (priority, index) as one number: the priority counts
      `n` times more than an index below n. */
  function DrawKey(priorities: map<string, int>, n: int, e: Indexed): int {
    Priority(priorities, e.0) * n + e.1
  }

  /** The priority of an element's class (0 when it has none, a case the
      drawing order rules out first). */
  function Priority(priorities: map<string, int>, e: Element): int {
    if ClassName(e) in priorities then priorities[ClassName(e)] else 0
  }

  /** (p, i) before (q, j) in the order of tuples. */
  predicate TupleBefore(p: int, i: int, q: int, j: int) {
    p < q || (p == q && i < j)
  }

  /** The one-number key orders as the tuple does, for indices below n. */
  lemma DrawKeyOrder(p: int, i: int, q: int, j: int, n: int)
    requires 0 <= i < n && 0 <= j < n && i != j
    ensures p * n + i <= q * n + j <==> TupleBefore(p, i, q, j)
  {
    if p < q {
      MulGap(p, q, n);
    } else if p > q {
      MulGap(q, p, n);
    }
  }

  /** A larger factor gives a product at least n larger. */
  lemma MulGap(p: int, q: int, n: int)
    requires p < q && n >= 0
    ensures q * n >= p * n + n
  {
    var d := q - p;
    calc {
      q * n;
      (p + d) * n;
      p * n + d * n;
      p * n + n + (d - 1) * n;
    }
    assert (d - 1) * n >= 0;
  }

  /** The drawing order of a page in render: each element with its index,
      sorted by (priority of its class, index); KeyError for the first
      element whose class has no priority. */
  function DrawOrder(elements: seq<Element>, priorities: map<string, int>): (r: Result<seq<Indexed>>)
    ensures r.Err? <==> exists i :: 0 <= i < |elements| && ClassName(elements[i]) !in priorities
    ensures r.Err? ==> r.error.KeyError?
    ensures r.Ok? ==> multiset(r.value) == multiset(WithIndices(elements))
    ensures r.Ok? ==> forall a, b :: 0 <= a < b < |r.value| ==>
      TupleBefore(Priority(priorities, r.value[a].0), r.value[a].1, Priority(priorities, r.value[b].0), r.value[b].1)
  {
    var missing := MissingClass(elements, priorities);
    if missing.Some? then Err(KeyError(missing.value))
    else
      var n := |elements|;
      var indexed := WithIndices(elements);
      var sorted := SortBy(indexed, e => DrawKey(priorities, n, e));
      SortedTuples(elements, priorities, sorted);
      Ok(sorted)
  }

  /** The class name of the first element without a priority, if any. */
  function MissingClass(elements: seq<Element>, priorities: map<string, int>): (r: Option<string>)
    ensures r.None? <==> forall i :: 0 <= i < |elements| ==> ClassName(elements[i]) in priorities
  {
    if elements == [] then None
    else if ClassName(elements[0]) !in priorities then Some(ClassName(elements[0]))
    else
      var rest := MissingClass(elements[1..], priorities);
      assert forall i :: 1 <= i < |elements| ==> elements[i] == elements[1..][i - 1];
      rest
  }

  lemma SortedTuples(elements: seq<Element>, priorities: map<string, int>, sorted: seq<Indexed>)
    requires forall i :: 0 <= i < |elements| ==> ClassName(elements[i]) in priorities
    requires multiset(sorted) == multiset(WithIndices(elements))
    requires SortedBy(sorted, e => DrawKey(priorities, |elements|, e))
    ensures forall a, b :: 0 <= a < b < |sorted| ==>
      TupleBefore(Priority(priorities, sorted[a].0), sorted[a].1, Priority(priorities, sorted[b].0), sorted[b].1)
  {
    var n := |elements|;
    var indexed := WithIndices(elements);
    assert |sorted| == n by {
      assert |multiset(sorted)| == |multiset(indexed)|;
    }
    forall e | e in sorted ensures e in indexed && e == (elements[e.1], e.1) && 0 <= e.1 < n {
      assert e in multiset(sorted);
    }
    forall a, b | 0 <= a < b < |sorted|
      ensures TupleBefore(Priority(priorities, sorted[a].0), sorted[a].1, Priority(priorities, sorted[b].0), sorted[b].1)
    {
      assert sorted[a] in sorted && sorted[b] in sorted;
      DistinctIndexes(indexed, sorted, a, b);
      DrawKeyOrder(Priority(priorities, sorted[a].0), sorted[a].1, Priority(priorities, sorted[b].0), sorted[b].1, n);
    }
  }

  /** Two places of a permutation of the indexed elements hold different
      indices. */
  lemma DistinctIndexes(indexed: seq<Indexed>, sorted: seq<Indexed>, a: int, b: int)
    requires forall i :: 0 <= i < |indexed| ==> indexed[i].1 == i
    requires multiset(sorted) == multiset(indexed)
    requires 0 <= a < b < |sorted|
    ensures sorted[a].1 != sorted[b].1
  {
    if sorted[a].1 == sorted[b].1 {
      assert sorted[a] in multiset(indexed) && sorted[b] in multiset(indexed);
      var i := sorted[a].1;
      assert sorted[a] == indexed[i] && sorted[b] == indexed[i];
      var m := multiset(sorted);
      assert sorted == sorted[..b] + [sorted[b]] + sorted[b + 1..];
      assert sorted[a] in sorted[..b];
      assert m[indexed[i]] >= 2;
      OnceIndexed(indexed, i);
      assert false;
    }
  }

  /** Each indexed element occurs once. */
  lemma {:induction false} OnceIndexed(indexed: seq<Indexed>, i: int)
    requires forall k :: 0 <= k < |indexed| ==> indexed[k].1 == k
    requires 0 <= i < |indexed|
    ensures multiset(indexed)[indexed[i]] == 1
  {
    var last := |indexed| - 1;
    if last > 0 {
      var init := indexed[..last];
      assert indexed == init + [indexed[last]];
      if i < last {
        assert init[i] == indexed[i];
        OnceIndexed(init, i);
        assert indexed[last] != indexed[i];
      } else {
        assert indexed[i] !in init by {
          forall k | 0 <= k < |init| ensures init[k] != indexed[i] {
            assert init[k].1 == k;
          }
        }
      }
    }
  }

  /** With the default priorities shapes are drawn first, then images,
      then texts. */
  lemma DefaultPriorityOrder()
    ensures DefaultPriorities["shape"] < DefaultPriorities["image"] < DefaultPriorities["text"]
  {
  }
}
