/** Searching the rendered transcript, in the simple way: one span per visible character, and every match
    compared with every span. */
module SearchSpec {
  /** One grapheme of a line as the segmenter reports it. */
  datatype Cell = Cell(text: string, width: nat, space: bool)

  type Line = seq<Cell>

  predicate Printable(c: char) {
    ' ' <= c <= '~'
  }

  /** What the segmenter and the width function promise: no empty graphemes, and printable ASCII comes
      one character and one column at a time. */
  predicate Proper(cell: Cell) {
    && cell.text != ""
    && ((forall i :: 0 <= i < |cell.text| ==> Printable(cell.text[i])) ==>
          |cell.text| == 1 && cell.width == 1 && (cell.space <==> cell.text == " "))
  }

  predicate ProperLine(line: Line) {
    forall i :: 0 <= i < |line| ==> Proper(line[i])
  }

  predicate ProperLines(lines: seq<Line>) {
    forall row :: 0 <= row < |lines| ==> ProperLine(lines[row])
  }

  /** Where a piece of the searchable text came from. With `linear`, one column per character. */
  datatype Span = Span(textStart: nat, textEnd: nat, row: nat, startCol: nat, endCol: nat, linear: bool)

  datatype Corpus = Corpus(text: string, spans: seq<Span>)

  datatype Segment = Segment(row: nat, startCol: int, endCol: int)

  /** A match in the text, from `start` up to but not including `end`. */
  datatype Interval = Interval(start: nat, end: nat)

  type Matches = seq<seq<Segment>>

  // ---- the corpus ------------------------------------------------------------------------------

  /** A corpus being built: whether a separator is due, and the column in the current line. */
  datatype Draft = Draft(text: string, spans: seq<Span>, pending: bool, column: nat)

  function Empty(): Draft {
    Draft("", [], false, 0)
  }

  /** The text with the separator that is due. */
  function Separated(text: string, pending: bool): string {
    if pending then text + " " else text
  }

  function AddCell(d: Draft, cell: Cell, row: nat): Draft {
    if cell.space then
      d.(pending := d.pending || d.text != "", column := d.column + cell.width)
    else
      var text := Separated(d.text, d.pending);
      Draft(text + cell.text,
            d.spans + [Span(|text|, |text| + |cell.text|, row, d.column, d.column + cell.width, false)],
            false, d.column + cell.width)
  }

  function AddCells(d: Draft, cells: Line, row: nat): Draft
    decreases |cells|
  {
    if cells == [] then d else AddCell(AddCells(d, cells[..|cells| - 1], row), cells[|cells| - 1], row)
  }

  function EndLine(d: Draft): Draft {
    d.(pending := d.pending || d.text != "", column := 0)
  }

  function AddLines(lines: seq<Line>): Draft
    decreases |lines|
  {
    if lines == [] then Empty()
    else EndLine(AddCells(AddLines(lines[..|lines| - 1]), lines[|lines| - 1], |lines| - 1))
  }

  function SimpleCorpus(lines: seq<Line>): Corpus {
    Corpus(AddLines(lines).text, AddLines(lines).spans)
  }

  // ---- the segments of a match -----------------------------------------------------------------

  function Max(a: int, b: int): int {
    if a < b then b else a
  }

  function Min(a: int, b: int): int {
    if a < b then a else b
  }

  /** A stretch of a row is joined to the last segment if it touches it. */
  function Join(segments: seq<Segment>, row: nat, startCol: int, endCol: int): seq<Segment> {
    if segments != [] && segments[|segments| - 1].row == row && startCol <= segments[|segments| - 1].endCol then
      segments[|segments| - 1 := segments[|segments| - 1].(endCol := Max(segments[|segments| - 1].endCol, endCol))]
    else segments + [Segment(row, startCol, endCol)]
  }

  predicate Touches(span: Span, m: Interval) {
    span.textStart < m.end && m.start < span.textEnd
  }

  function AddSpan(segments: seq<Segment>, span: Span, m: Interval): seq<Segment> {
    if !Touches(span, m) then segments
    else if span.linear then
      Join(segments, span.row, span.startCol + Max(m.start, span.textStart) - span.textStart,
           span.startCol + Min(m.end, span.textEnd) - span.textStart)
    else Join(segments, span.row, span.startCol, span.endCol)
  }

  function AddSpans(segments: seq<Segment>, spans: seq<Span>, m: Interval): seq<Segment>
    decreases |spans|
  {
    if spans == [] then segments
    else AddSpan(AddSpans(segments, spans[..|spans| - 1], m), spans[|spans| - 1], m)
  }

  /** All matches that cover anything visible, each against all spans. */
  function AllSegments(spans: seq<Span>, ms: seq<Interval>): Matches
    decreases |ms|
  {
    if ms == [] then []
    else
      var segments := AddSpans([], spans, ms[|ms| - 1]);
      AllSegments(spans, ms[..|ms| - 1]) + if segments == [] then [] else [segments]
  }

  // ---- the query -------------------------------------------------------------------------------

  /** The white space of regular expressions. */
  predicate IsSpace(c: char) {
    || '\t' <= c <= '\r' || c == ' ' || c == '\U{00A0}' || c == '\U{1680}' || '\U{2000}' <= c <= '\U{200A}'
    || c == '\U{2028}' || c == '\U{2029}' || c == '\U{202F}' || c == '\U{205F}' || c == '\U{3000}' || c == '\U{FEFF}'
  }

  /** White space at either end dropped, other runs of it replaced by one blank. */
  function NormalizeQuery(query: string): string
    decreases |query|
  {
    if query == "" then ""
    else
      var rest := NormalizeQuery(query[..|query| - 1]);
      var last := query[|query| - 1];
      if IsSpace(last) then rest
      else if rest != "" && |query| > 1 && IsSpace(query[|query| - 2]) then rest + " " + [last]
      else rest + [last]
  }

  predicate Normal(query: string) {
    && (query != "" ==> !IsSpace(query[0]) && !IsSpace(query[|query| - 1]))
    && (forall i :: 0 <= i < |query| && IsSpace(query[i]) ==> query[i] == ' ')
    && (forall i :: 0 < i < |query| ==> !(IsSpace(query[i - 1]) && IsSpace(query[i])))
  }

  /** A normalised query has no white space at its ends and only single blanks inside. */
  lemma {:induction false} NormalizedIsNormal(query: string)
    ensures Normal(NormalizeQuery(query))
    decreases |query|
  {
    if query != "" {
      NormalizedIsNormal(query[..|query| - 1]);
    }
  }

  /** And normalising changes nothing that is normal, so it need only be done once. */
  lemma {:induction false} NormalStays(query: string)
    requires Normal(query)
    ensures NormalizeQuery(query) == query
    decreases |query|
  {
    if query != "" {
      var n := |query|;
      var front := query[..n - 1];
      assert query == front + [query[n - 1]];
      if n > 1 && IsSpace(query[n - 2]) {
        NormalFront(query);
        NormalStays(query[..n - 2]);
        assert front == query[..n - 2] + " ";
        BlankIsDropped(query[..n - 2]);
        assert query == query[..n - 2] + " " + [query[n - 1]];
      } else {
        NormalStays(front);
      }
    }
  }

  lemma NormalFront(query: string)
    requires Normal(query) && |query| > 1 && IsSpace(query[|query| - 2])
    ensures |query| > 2 && Normal(query[..|query| - 2])
    ensures query[..|query| - 1] == query[..|query| - 2] + " " && query[..|query| - 2] != ""
  {
  }

  lemma BlankIsDropped(word: string)
    ensures NormalizeQuery(word + " ") == NormalizeQuery(word)
  {
    assert (word + " ")[..|word|] == word;
  }

  /** A search from scratch: the simple corpus, the matcher's intervals, every span for every match. */
  function SimpleSearch(lines: seq<Line>, query: string, matcher: (string, string) -> seq<Interval>): Matches {
    var normal := NormalizeQuery(query);
    if normal == "" then []
    else AllSegments(SimpleCorpus(lines).spans, matcher(SimpleCorpus(lines).text, normal))
  }
}
