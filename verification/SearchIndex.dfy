/** The search index as the program has it: whole runs of ASCII in one span, a cursor that moves forward
    over the spans, and a cache. It finds exactly what the simple search finds. */
module SearchIndex {
  import opened Wrappers
  import opened SearchSpec

  // ---- runs and characters ---------------------------------------------------------------------

  /** A span taken apart into one span per character, if it is linear. */
  function Expand(span: Span): seq<Span> {
    if !span.linear || span.textEnd < span.textStart then [span]
    else Characters(span, span.textEnd - span.textStart)
  }

  /** The first `n` characters of a linear span. */
  function Characters(span: Span, n: nat): seq<Span> {
    if n == 0 then []
    else Characters(span, n - 1)
         + [Span(span.textStart + n - 1, span.textStart + n, span.row, span.startCol + n - 1, span.startCol + n, false)]
  }

  function ExpandAll(spans: seq<Span>): seq<Span>
    decreases |spans|
  {
    if spans == [] then [] else ExpandAll(spans[..|spans| - 1]) + Expand(spans[|spans| - 1])
  }

  lemma ExpandLinear(span: Span)
    requires span.linear && span.textStart <= span.textEnd
    ensures Expand(span) == Characters(span, span.textEnd - span.textStart)
  {
  }

  lemma ExpandAllAppend(spans: seq<Span>, span: Span)
    ensures ExpandAll(spans + [span]) == ExpandAll(spans) + Expand(span)
  {
    assert (spans + [span])[..|spans|] == spans;
  }

  /** A linear span covers as many columns as characters, and at least one. */
  predicate Sized(span: Span) {
    span.textStart < span.textEnd && (span.linear ==> span.endCol == span.startCol + (span.textEnd - span.textStart))
  }

  lemma {:induction false} AddSpansAppend(segments: seq<Segment>, a: seq<Span>, b: seq<Span>, m: Interval)
    ensures AddSpans(segments, a + b, m) == AddSpans(AddSpans(segments, a, m), b, m)
    decreases |b|
  {
    if b == [] {
      assert a + b == a;
    } else {
      assert (a + b)[..|a + b| - 1] == a + b[..|b| - 1];
      AddSpansAppend(segments, a, b[..|b| - 1], m);
    }
  }

  lemma JoinTwice(segments: seq<Segment>, row: nat, a: int, b: int, c: int)
    requires a <= b <= c
    ensures Join(Join(segments, row, a, b), row, b, c) == Join(segments, row, a, c)
  {
  }

  /** A run and one more character, clipped to a match. */
  lemma OneMoreCharacter(segments: seq<Segment>, span: Span, m: Interval)
    requires span.linear && m.start < m.end && span.textStart + 1 < span.textEnd
    ensures var n := span.textEnd - span.textStart;
            var one := Span(span.textEnd - 1, span.textEnd, span.row, span.startCol + n - 1, span.startCol + n, false);
            AddSpan(AddSpan(segments, span.(textEnd := span.textEnd - 1), m), one, m) == AddSpan(segments, span, m)
  {
    var n := span.textEnd - span.textStart;
    var shorter := span.(textEnd := span.textEnd - 1);
    if Touches(shorter, m) {
      JoinTwice(segments, span.row, span.startCol + Max(m.start, span.textStart) - span.textStart,
                span.startCol + n - 1, span.startCol + n);
    }
    hide Join;
  }

  /** Joining the characters of a run one by one gives what joining the clipped run gives. */
  lemma {:induction false} CharactersJoin(segments: seq<Segment>, span: Span, n: nat, m: Interval)
    requires span.linear && m.start < m.end && 0 < n <= span.textEnd - span.textStart
    ensures var clipped := span.(textEnd := span.textStart + n);
            AddSpans(segments, Characters(span, n), m) == AddSpan(segments, clipped, m)
    decreases n
  {
    var chars := Characters(span, n);
    if n == 1 {
      assert chars == [chars[0]] && chars[..0] == [];
    } else {
      assert chars[..|chars| - 1] == Characters(span, n - 1);
      CharactersJoin(segments, span, n - 1, m);
      OneMoreCharacter(segments, span.(textEnd := span.textStart + n), m);
      hide AddSpan;
    }
  }

  lemma ExpandJoins(segments: seq<Segment>, span: Span, m: Interval)
    requires Sized(span) && m.start < m.end
    ensures AddSpans(segments, Expand(span), m) == AddSpan(segments, span, m)
  {
    if span.linear {
      CharactersJoin(segments, span, span.textEnd - span.textStart, m);
      assert span.(textEnd := span.textStart + (span.textEnd - span.textStart)) == span;
    } else {
      assert [span][..0] == [];
    }
  }

  /** Whatever the match, runs give the same segments as their characters. */
  lemma {:induction false} RunsGiveTheSameSegments(spans: seq<Span>, m: Interval)
    requires m.start < m.end && forall i :: 0 <= i < |spans| ==> Sized(spans[i])
    ensures AddSpans([], ExpandAll(spans), m) == AddSpans([], spans, m)
    decreases |spans|
  {
    if spans != [] {
      var front, last := spans[..|spans| - 1], spans[|spans| - 1];
      RunsGiveTheSameSegments(front, m);
      AddSpansAppend([], ExpandAll(front), Expand(last), m);
      ExpandJoins(AddSpans([], front, m), last, m);
    }
  }

  // ---- building the corpus ---------------------------------------------------------------------

  predicate Ascii(line: Line) {
    forall i :: 0 <= i < |line| ==> forall j :: 0 <= j < |line[i].text| ==> Printable(line[i].text[j])
  }

  function TextOf(cells: Line): string
    decreases |cells|
  {
    if cells == [] then "" else TextOf(cells[..|cells| - 1]) + cells[|cells| - 1].text
  }

  /** Cells of printable ASCII other than blanks. */
  predicate Run(cells: Line) {
    forall i :: 0 <= i < |cells| ==> |cells[i].text| == 1 && cells[i].width == 1 && !cells[i].space
  }

  lemma Assoc<T>(a: seq<T>, b: seq<T>, c: seq<T>)
    ensures a + b + c == a + (b + c)
  {
  }

  /** The draft after a run has been added to `d`. */
  function AfterRun(d: Draft, text: string, n: nat, row: nat): Draft {
    var start := |Separated(d.text, d.pending)|;
    Draft(Separated(d.text, d.pending) + text, d.spans + Characters(Span(start, start + n, row, d.column, d.column + n, true), n),
          false, d.column + n)
  }

  lemma FirstOfRun(d: Draft, cell: Cell, row: nat)
    requires |cell.text| == 1 && cell.width == 1 && !cell.space
    ensures AddCell(d, cell, row) == AfterRun(d, cell.text, 1, row)
  {
    var start := |Separated(d.text, d.pending)|;
    var span := Span(start, start + 1, row, d.column, d.column + 1, true);
    assert Characters(span, 0) == [];
    assert Characters(span, 1) == [Span(start, start + 1, row, d.column, d.column + 1, false)];
  }

  lemma NextOfRun(d: Draft, text: string, n: nat, cell: Cell, row: nat)
    requires |cell.text| == 1 && cell.width == 1 && !cell.space && |text| == n
    ensures AddCell(AfterRun(d, text, n, row), cell, row) == AfterRun(d, text + cell.text, n + 1, row)
  {
    var start := |Separated(d.text, d.pending)|;
    var shorter := Span(start, start + n, row, d.column, d.column + n, true);
    var longer := Span(start, start + n + 1, row, d.column, d.column + n + 1, true);
    var one := Span(start + n, start + n + 1, row, d.column + n, d.column + n + 1, false);
    assert Characters(longer, n + 1) == Characters(longer, n) + [one];
    hide Characters, Separated;
    SameCharacters(shorter, longer, n);
    Assoc(Separated(d.text, d.pending), text, cell.text);
    Assoc(d.spans, Characters(longer, n), [one]);
  }

  /** Adding a run character by character leaves what adding it as one span stands for. */
  lemma {:induction false} RunAsOneSpan(d: Draft, cells: Line, row: nat)
    requires Run(cells) && cells != []
    ensures |TextOf(cells)| == |cells| && AddCells(d, cells, row) == AfterRun(d, TextOf(cells), |cells|, row)
    decreases |cells|
  {
    hide AfterRun, AddCell;
    var front, last := cells[..|cells| - 1], cells[|cells| - 1];
    if |cells| == 1 {
      assert TextOf(front) == "" && TextOf(cells) == last.text;
      assert AddCells(d, front, row) == d;
      FirstOfRun(d, last, row);
    } else {
      RunAsOneSpan(d, front, row);
      NextOfRun(d, TextOf(front), |front|, last, row);
    }
  }

  lemma {:induction false} SameCharacters(a: Span, b: Span, n: nat)
    requires a.textStart == b.textStart && a.row == b.row && a.startCol == b.startCol
    ensures Characters(a, n) == Characters(b, n)
    decreases n
  {
    if n > 0 {
      SameCharacters(a, b, n - 1);
    }
  }

  lemma {:induction false} AddCellsAppend(d: Draft, a: Line, b: Line, row: nat)
    ensures AddCells(d, a + b, row) == AddCells(AddCells(d, a, row), b, row)
    decreases |b|
  {
    if b == [] {
      assert a + b == a;
    } else {
      assert (a + b)[..|a + b| - 1] == a + b[..|b| - 1];
      AddCellsAppend(d, a, b[..|b| - 1], row);
    }
  }

  /** The spans are in the order of the text and do not overlap. */
  predicate Ordered(spans: seq<Span>, length: nat) {
    && (forall i :: 0 <= i < |spans| ==> Sized(spans[i]) && spans[i].textEnd <= length)
    && (forall i, j :: 0 <= i < j < |spans| ==> spans[i].textEnd <= spans[j].textStart)
  }

  /** A corpus under construction stands for a draft of the simple one. */
  predicate Builds(text: string, spans: seq<Span>, pending: bool, column: nat, d: Draft) {
    && text == d.text && ExpandAll(spans) == d.spans && pending == d.pending && column == d.column
    && Ordered(spans, |text|)
  }

  class CorpusBuilder {
    var text: string
    var spans: seq<Span>
    var pendingSeparator: bool
    var column: nat

    constructor ()
      ensures Builds(text, spans, pendingSeparator, column, Empty())
    {
      text, spans, pendingSeparator, column := "", [], false, 0;
    }

    method AppendSeparator()
      modifies this`text, this`pendingSeparator
      ensures text == Separated(old(text), old(pendingSeparator)) && !pendingSeparator
    {
      if pendingSeparator {
        text := text + " ";
        pendingSeparator := false;
      }
    }

    /** A stretch of text that came from one place. */
    method AppendText(piece: string, width: nat, row: nat, linear: bool)
      requires piece != "" && (linear ==> width == |piece|) && Ordered(spans, |text|)
      modifies this
      ensures var start := |Separated(old(text), old(pendingSeparator))|;
              && text == Separated(old(text), old(pendingSeparator)) + piece
              && spans == old(spans) + [Span(start, start + |piece|, row, old(column), old(column) + width, linear)]
      ensures !pendingSeparator && column == old(column) + width && Ordered(spans, |text|)
    {
      AppendSeparator();
      spans := spans + [Span(|text|, |text| + |piece|, row, column, column + width, linear)];
      text := text + piece;
      column := column + width;
    }

    method SkipSpace(width: nat)
      modifies this`pendingSeparator, this`column
      ensures pendingSeparator == (old(pendingSeparator) || text != "") && column == old(column) + width
    {
      if |text| > 0 {
        pendingSeparator := true;
      }
      column := column + width;
    }

    /** One grapheme that is white space. */
    method AddSpace(width: nat, ghost cell: Cell, row: nat, ghost d: Draft)
      requires cell.space && cell.width == width && Builds(text, spans, pendingSeparator, column, d)
      modifies this`pendingSeparator, this`column
      ensures Builds(text, spans, pendingSeparator, column, AddCell(d, cell, row))
    {
      SkipSpace(width);
    }

    /** One grapheme that is not. */
    method AddVisible(cell: Cell, row: nat, ghost d: Draft)
      requires !cell.space && cell.text != "" && Builds(text, spans, pendingSeparator, column, d)
      modifies this
      ensures Builds(text, spans, pendingSeparator, column, AddCell(d, cell, row))
    {
      hide Ordered, Sized, ExpandAll;
      ghost var before := spans;
      AppendText(cell.text, cell.width, row, false);
      ExpandAllAppend(before, spans[|before|]);
    }

    /** A line of printable ASCII, a run of characters at a time. */
    method AddAsciiLine(line: Line, row: nat, ghost d: Draft)
      requires ProperLine(line) && Ascii(line) && Builds(text, spans, pendingSeparator, column, d)
      modifies this
      ensures Builds(text, spans, pendingSeparator, column, AddCells(d, line, row))
    {
      hide Builds, AddCell, AddCells;
      var index := 0;
      AddNoCells(d, line, row);
      while index < |line|
        invariant 0 <= index <= |line|
        invariant Builds(text, spans, pendingSeparator, column, AddCells(d, line[..index], row))
      {
        assert Proper(line[index]);
        if line[index].space {
          AddSpace(1, line[index], row, AddCells(d, line[..index], row));
          AddCellsNext(d, line, index, row);
          index := index + 1;
        } else {
          var end := index + 1;
          while end < |line| && !line[end].space
            invariant index < end <= |line| && forall i :: index <= i < end ==> !line[i].space
          {
            end := end + 1;
          }
          AddRun(line[index..end], row, AddCells(d, line[..index], row));
          AddCellsAppend(d, line[..index], line[index..end], row);
          assert line[..index] + line[index..end] == line[..end];
          index := end;
        }
      }
      assert line[..index] == line;
    }

    method AddRun(cells: Line, row: nat, ghost d: Draft)
      requires cells != [] && ProperLine(cells) && Ascii(cells) && forall i :: 0 <= i < |cells| ==> !cells[i].space
      requires Builds(text, spans, pendingSeparator, column, d)
      modifies this
      ensures Builds(text, spans, pendingSeparator, column, AddCells(d, cells, row))
    {
      hide Proper, Ordered, Sized, ExpandAll, ProperLine, Ascii, AddCells, TextOf, Run, AfterRun, Separated, Builds;
      AsciiIsRun(cells);
      RunAsOneSpan(d, cells, row);
      RunBuilds(text, spans, pendingSeparator, column, d, TextOf(cells), row);
      var piece := TextOf(cells);
      ghost var after := AfterRun(d, piece, |cells|, row);
      AppendText(piece, |piece|, row, true);
      assert Builds(text, spans, pendingSeparator, column, after);
    }

    /** Any other line, a grapheme at a time. */
    method AddOtherLine(line: Line, row: nat, ghost d: Draft)
      requires ProperLine(line) && Builds(text, spans, pendingSeparator, column, d)
      modifies this
      ensures Builds(text, spans, pendingSeparator, column, AddCells(d, line, row))
    {
      hide Builds, AddCell, AddCells;
      var i := 0;
      AddNoCells(d, line, row);
      while i < |line|
        invariant 0 <= i <= |line|
        invariant Builds(text, spans, pendingSeparator, column, AddCells(d, line[..i], row))
      {
        AddCellsNext(d, line, i, row);
        assert Proper(line[i]);
        if line[i].space {
          AddSpace(line[i].width, line[i], row, AddCells(d, line[..i], row));
        } else {
          AddVisible(line[i], row, AddCells(d, line[..i], row));
        }
        i := i + 1;
      }
      assert line[..i] == line;
    }
  }

  lemma RunBuilds(text: string, spans: seq<Span>, pending: bool, column: nat, d: Draft, piece: string, row: nat)
    requires Builds(text, spans, pending, column, d)
    ensures var start := |Separated(text, pending)|;
            var longer := spans + [Span(start, start + |piece|, row, column, column + |piece|, true)];
            Ordered(longer, start + |piece|) ==>
              Builds(Separated(text, pending) + piece, longer, false, column + |piece|, AfterRun(d, piece, |piece|, row))
    ensures Ordered(spans, |text|)
  {
    hide Expand, ExpandAll, Characters, Ordered, Separated;
    var start := |Separated(text, pending)|;
    var span := Span(start, start + |piece|, row, column, column + |piece|, true);
    ExpandAllAppend(spans, span);
    ExpandLinear(span);
  }

  lemma AddNoCells(d: Draft, line: Line, row: nat)
    ensures AddCells(d, line[..0], row) == d
  {
  }

  lemma AddCellsNext(d: Draft, line: Line, i: nat, row: nat)
    requires i < |line|
    ensures AddCells(d, line[..i + 1], row) == AddCell(AddCells(d, line[..i], row), line[i], row)
  {
    assert line[..i + 1][..i] == line[..i];
  }

  lemma AsciiIsRun(cells: Line)
    requires ProperLine(cells) && Ascii(cells) && forall i :: 0 <= i < |cells| ==> !cells[i].space
    ensures Run(cells)
  {
    forall i | 0 <= i < |cells| ensures |cells[i].text| == 1 && cells[i].width == 1 {
      assert Proper(cells[i]);
    }
  }

  /** `buildSearchCorpus`: the same text as the simple corpus, and spans that stand for its spans. */
  method BuildSearchCorpus(lines: seq<Line>) returns (corpus: Corpus)
    requires ProperLines(lines)
    ensures corpus.text == SimpleCorpus(lines).text && ExpandAll(corpus.spans) == SimpleCorpus(lines).spans
    ensures Ordered(corpus.spans, |corpus.text|)
  {
    var b := new CorpusBuilder();
    for row := 0 to |lines|
      invariant Builds(b.text, b.spans, b.pendingSeparator, b.column, AddLines(lines[..row]))
    {
      assert lines[..row + 1][..row] == lines[..row];
      assert ProperLine(lines[row]);
      ghost var d := AddLines(lines[..row]);
      b.column := 0;
      if Ascii(lines[row]) {
        b.AddAsciiLine(lines[row], row, d);
      } else {
        b.AddOtherLine(lines[row], row, d);
      }
      if |b.text| > 0 {
        b.pendingSeparator := true;
      }
      b.column := 0;
    }
    assert lines[..|lines|] == lines;
    corpus := Corpus(b.text, b.spans);
  }

  // ---- finding ---------------------------------------------------------------------------------

  /** What the matcher promises: nonempty matches in the text, one after the other. */
  predicate Ascending(ms: seq<Interval>, length: nat) {
    && (forall i :: 0 <= i < |ms| ==> ms[i].start < ms[i].end <= length)
    && (forall i, j :: 0 <= i < j < |ms| ==> ms[i].end <= ms[j].start)
  }

  /** Spans that miss a match do not change its segments. */
  lemma {:induction false} MissedSpans(segments: seq<Segment>, spans: seq<Span>, m: Interval)
    requires forall i :: 0 <= i < |spans| ==> !Touches(spans[i], m)
    ensures AddSpans(segments, spans, m) == segments
    decreases |spans|
  {
    if spans != [] {
      MissedSpans(segments, spans[..|spans| - 1], m);
    }
  }

  /** The part of a span inside a match joins the segments. */
  method ClipSpan(segments: seq<Segment>, span: Span, m: Interval) returns (after: seq<Segment>)
    requires span.textStart < m.end
    ensures after == AddSpan(segments, span, m)
  {
    if span.textEnd <= m.start {
      return segments;
    }
    var startCol: int, endCol: int := span.startCol, span.endCol;
    if span.linear {
      startCol := span.startCol + Max(m.start, span.textStart) - span.textStart;
      endCol := span.startCol + Min(m.end, span.textEnd) - span.textStart;
    }
    var last := |segments| - 1;
    if |segments| > 0 && segments[last].row == span.row && startCol <= segments[last].endCol {
      after := segments[last := segments[last].(endCol := Max(segments[last].endCol, endCol))];
    } else {
      after := segments + [Segment(span.row, startCol, endCol)];
    }
  }

  /** The segments of one match, from the first span that can touch it to the first one past it. */
  method MatchSegments(spans: seq<Span>, first: nat, m: Interval) returns (segments: seq<Segment>)
    requires m.start < m.end && first <= |spans|
    requires forall i, j :: 0 <= i < j < |spans| ==> spans[i].textEnd <= spans[j].textStart
    requires forall i :: 0 <= i < |spans| ==> Sized(spans[i])
    requires forall i :: 0 <= i < first ==> spans[i].textEnd <= m.start
    ensures segments == AddSpans([], spans, m)
  {
    hide AddSpan, AddSpans;
    segments := [];
    var index := first;
    MissedSpans([], spans[..first], m);
    while index < |spans| && spans[index].textStart < m.end
      invariant first <= index <= |spans| && segments == AddSpans([], spans[..index], m)
    {
      AddSpansNext(spans, index, m);
      segments := ClipSpan(segments, spans[index], m);
      index := index + 1;
    }
    assert spans == spans[..index] + spans[index..];
    AddSpansAppend([], spans[..index], spans[index..], m);
    forall i | 0 <= i < |spans[index..]| ensures !Touches(spans[index..][i], m) {
      assert spans[index..][i] == spans[index + i] && Sized(spans[index]);
    }
    MissedSpans(segments, spans[index..], m);
  }

  lemma AddSpansNext(spans: seq<Span>, i: nat, m: Interval)
    requires i < |spans|
    ensures AddSpans([], spans[..i + 1], m) == AddSpan(AddSpans([], spans[..i], m), spans[i], m)
  {
    assert spans[..i + 1][..i] == spans[..i];
  }

  /** `findSearchCorpusMatches`: the cursor never goes back, and still no span is missed. */
  method FindMatches(corpus: Corpus, ms: seq<Interval>) returns (matches: Matches)
    requires Ordered(corpus.spans, |corpus.text|) && Ascending(ms, |corpus.text|)
    ensures matches == AllSegments(corpus.spans, ms)
  {
    matches := [];
    var spans, spanIndex, k := corpus.spans, 0, 0;
    while k < |ms|
      invariant 0 <= k <= |ms| && 0 <= spanIndex <= |spans|
      invariant forall i :: 0 <= i < spanIndex && k < |ms| ==> spans[i].textEnd <= ms[k].start
      invariant matches == AllSegments(spans, ms[..k])
    {
      var m := ms[k];
      assert ms[..k + 1][..k] == ms[..k];
      while spanIndex < |spans| && spans[spanIndex].textEnd <= m.start
        invariant spanIndex <= |spans| && forall i :: 0 <= i < spanIndex ==> spans[i].textEnd <= m.start
      {
        spanIndex := spanIndex + 1;
      }
      var segments := MatchSegments(spans, spanIndex, m);
      while spanIndex < |spans| && spans[spanIndex].textEnd <= m.end
        invariant spanIndex <= |spans| && forall i :: 0 <= i < spanIndex ==> spans[i].textEnd <= m.end
      {
        spanIndex := spanIndex + 1;
      }
      if |segments| > 0 {
        matches := matches + [segments];
      }
      k := k + 1;
    }
    assert ms[..k] == ms;
  }

  lemma {:induction false} RunsGiveTheSameMatches(spans: seq<Span>, ms: seq<Interval>)
    requires forall i :: 0 <= i < |spans| ==> Sized(spans[i])
    requires forall i :: 0 <= i < |ms| ==> ms[i].start < ms[i].end
    ensures AllSegments(ExpandAll(spans), ms) == AllSegments(spans, ms)
    decreases |ms|
  {
    if ms != [] {
      RunsGiveTheSameMatches(spans, ms[..|ms| - 1]);
      RunsGiveTheSameSegments(spans, ms[|ms| - 1]);
    }
  }

  // ---- the index -------------------------------------------------------------------------------

  /** The lines without their terminal sequences, cut into cells. */
  function Stripped(cells: string -> Line, lines: seq<string>): seq<Line> {
    seq(|lines|, row requires 0 <= row < |lines| => cells(lines[row]))
  }

  class AltScreenSearchIndex {
    // The lines as they were rendered, terminal sequences and all.
    var sourceLines: Option<seq<string>>
    var corpus: Option<Corpus>
    var normalizedQuery: Option<string>
    var matches: Matches
    const cells: string -> Line
    const matcher: (string, string) -> seq<Interval>

    ghost predicate Matcher() {
      && (forall text, query :: Ascending(matcher(text, query), |text|))
      && forall line :: ProperLine(cells(line))
    }

    /** The cache holds what it would hold if it were filled anew. */
    ghost predicate Valid()
      reads this
    {
      && Matcher()
      && (corpus.Some? <==> sourceLines.Some?)
      && (normalizedQuery.Some? ==> sourceLines.Some?)
      && (sourceLines.Some? ==> CorpusOf(Stripped(cells, sourceLines.value), corpus.value))
      && (normalizedQuery.Some? ==> matches == Found(Stripped(cells, sourceLines.value), normalizedQuery.value))
    }

    ghost predicate CorpusOf(lines: seq<Line>, c: Corpus) {
      && c.text == SimpleCorpus(lines).text && ExpandAll(c.spans) == SimpleCorpus(lines).spans
      && Ordered(c.spans, |c.text|)
    }

    ghost function Found(lines: seq<Line>, normal: string): Matches {
      if normal == "" then []
      else AllSegments(SimpleCorpus(lines).spans, matcher(SimpleCorpus(lines).text, normal))
    }

    constructor (cells: string -> Line, matcher: (string, string) -> seq<Interval>)
      requires forall text, query :: Ascending(matcher(text, query), |text|)
      requires forall line :: ProperLine(cells(line))
      ensures Valid() && this.cells == cells && this.matcher == matcher && normalizedQuery == None
    {
      this.cells, this.matcher := cells, matcher;
      sourceLines, corpus, normalizedQuery, matches := None, None, None, [];
    }

    /** Whatever was searched before, the result is that of a simple search from scratch; `changed` says
        whether the lines as rendered or the normalised query differ from the last time. */
    method Search(lines: seq<string>, query: string) returns (result: Matches, changed: bool)
      requires Valid()
      modifies this
      ensures Valid() && result == SimpleSearch(Stripped(cells, lines), query, matcher)
      ensures !changed <==>
                old(sourceLines) == Some(lines) && old(normalizedQuery) == Some(NormalizeQuery(query))
      ensures sourceLines == Some(lines) && normalizedQuery == Some(NormalizeQuery(query))
    {
      var sourceChanged := sourceLines.None? || |sourceLines.value| != |lines|;
      if !sourceChanged {
        var index := 0;
        while index < |lines| && sourceLines.value[index] == lines[index]
          invariant 0 <= index <= |lines| && forall i :: 0 <= i < index ==> sourceLines.value[i] == lines[i]
        {
          index := index + 1;
        }
        sourceChanged := index < |lines|;
        assert !sourceChanged ==> sourceLines.value == lines;
      }
      assert sourceChanged <==> sourceLines != Some(lines);
      if sourceChanged || corpus.None? {
        var built := BuildSearchCorpus(Stripped(cells, lines));
        sourceLines, corpus := Some(lines), Some(built);
      }
      var normal := NormalizeQuery(query);
      changed := sourceChanged || normalizedQuery != Some(normal);
      if changed {
        normalizedQuery := Some(normal);
        if normal == "" {
          matches := [];
        } else {
          var ms := matcher(corpus.value.text, normal);
          matches := FindMatches(corpus.value, ms);
          RunsGiveTheSameMatches(corpus.value.spans, ms);
        }
      }
      result := matches;
    }
  }
}
