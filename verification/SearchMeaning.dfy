/** What the simple search means for the screen: which characters the text consists of, where they stand,
    and which columns a match lights up. */
module SearchMeaning {
  import opened SearchSpec

  // ---- the text and its places -----------------------------------------------------------------

  datatype Place = Place(row: nat, index: nat)

  function Columns(cells: Line): nat
    decreases |cells|
  {
    if cells == [] then 0 else Columns(cells[..|cells| - 1]) + cells[|cells| - 1].width
  }

  /** The cells of a line that are not white space. */
  function Visible(cells: Line, row: nat): seq<Place>
    decreases |cells|
  {
    if cells == [] then []
    else Visible(cells[..|cells| - 1], row) + if cells[|cells| - 1].space then [] else [Place(row, |cells| - 1)]
  }

  function AllVisible(lines: seq<Line>): seq<Place>
    decreases |lines|
  {
    if lines == [] then []
    else AllVisible(lines[..|lines| - 1]) + Visible(lines[|lines| - 1], |lines| - 1)
  }

  predicate At(lines: seq<Line>, p: Place) {
    p.row < |lines| && p.index < |lines[p.row]|
  }

  /** The span is the cell's: its text, its row, its columns. */
  predicate Shows(text: string, span: Span, lines: seq<Line>, p: Place) {
    && At(lines, p) && !lines[p.row][p.index].space && !span.linear && span.row == p.row
    && span.startCol == Columns(lines[p.row][..p.index])
    && span.endCol == span.startCol + lines[p.row][p.index].width
    && span.textStart < span.textEnd <= |text| && text[span.textStart..span.textEnd] == lines[p.row][p.index].text
  }

  predicate Neighbours(p: Place, q: Place) {
    q == Place(p.row, p.index + 1)
  }

  /** Neighbours follow each other directly in the text; between all others there is one blank. */
  predicate Follows(text: string, before: Span, p: Place, after: Span, q: Place) {
    if Neighbours(p, q) then after.textStart == before.textEnd
    else before.textEnd < |text| && text[before.textEnd] == ' ' && after.textStart == before.textEnd + 1
  }

  predicate AllShow(text: string, spans: seq<Span>, lines: seq<Line>, places: seq<Place>) {
    |spans| == |places| && forall k {:trigger spans[k]} :: 0 <= k < |spans| ==> Shows(text, spans[k], lines, places[k])
  }

  predicate AllFollow(text: string, spans: seq<Span>, places: seq<Place>) {
    && |spans| == |places|
    && forall k {:trigger spans[k]} :: 0 < k < |spans| ==> Follows(text, spans[k - 1], places[k - 1], spans[k], places[k])
  }

  predicate Spans(text: string, spans: seq<Span>) {
    if spans == [] then text == "" else spans[0].textStart == 0 && spans[|spans| - 1].textEnd == |text|
  }

  /** The text consists of the cells at these places, in this order, and of the blanks between them. */
  predicate Spells(text: string, spans: seq<Span>, lines: seq<Line>, places: seq<Place>) {
    AllShow(text, spans, lines, places) && AllFollow(text, spans, places) && Spans(text, spans)
  }

  /** The draft has come to this cell of this row. */
  predicate Reached(d: Draft, lines: seq<Line>, row: nat, index: nat, places: seq<Place>) {
    && row < |lines| && index <= |lines[row]|
    && d.column == Columns(lines[row][..index])
    && Spells(d.text, d.spans, lines, places)
    && (d.pending <==> places != [] && !Neighbours(places[|places| - 1], Place(row, index)))
    && (places != [] ==> places[|places| - 1].row <= row)
  }

  lemma ShowsLonger(text: string, more: string, span: Span, lines: seq<Line>, p: Place)
    requires Shows(text, span, lines, p)
    ensures Shows(text + more, span, lines, p)
  {
    assert (text + more)[span.textStart..span.textEnd] == text[span.textStart..span.textEnd];
  }

  lemma AllShowMore(text: string, more: string, spans: seq<Span>, lines: seq<Line>, places: seq<Place>, added: Span, p: Place)
    requires AllShow(text, spans, lines, places) && Shows(text + more, added, lines, p)
    ensures AllShow(text + more, spans + [added], lines, places + [p])
  {
    hide Shows;
    var ss, ps := spans + [added], places + [p];
    forall k {:trigger ss[k]} | 0 <= k < |ss| ensures Shows(text + more, ss[k], lines, ps[k]) {
      if k < |spans| {
        ShowsLonger(text, more, spans[k], lines, places[k]);
      }
    }
  }

  lemma AllFollowMore(text: string, more: string, spans: seq<Span>, places: seq<Place>, added: Span, p: Place)
    requires AllFollow(text, spans, places)
    requires spans != [] ==> Follows(text + more, spans[|spans| - 1], places[|spans| - 1], added, p)
    ensures AllFollow(text + more, spans + [added], places + [p])
  {
    var ss, ps := spans + [added], places + [p];
    forall k {:trigger ss[k]} | 0 < k < |ss| ensures Follows(text + more, ss[k - 1], ps[k - 1], ss[k], ps[k]) {
      if k < |spans| {
        assert Follows(text, spans[k - 1], places[k - 1], spans[k], places[k]);
      }
    }
  }

  /** One more visible cell. */
  lemma SpellsMore(text: string, spans: seq<Span>, lines: seq<Line>, places: seq<Place>, pending: bool, p: Place, added: Span)
    requires Spells(text, spans, lines, places) && At(lines, p) && !lines[p.row][p.index].space
    requires lines[p.row][p.index].text != "" && (pending <==> places != [] && !Neighbours(places[|places| - 1], p))
    requires var cell := lines[p.row][p.index];
             var column, start := Columns(lines[p.row][..p.index]), |Separated(text, pending)|;
             added == Span(start, start + |cell.text|, p.row, column, column + cell.width, false)
    ensures Spells(Separated(text, pending) + lines[p.row][p.index].text, spans + [added], lines, places + [p])
  {
    hide Columns, AllShow, AllFollow;
    var cell, start := lines[p.row][p.index], |Separated(text, pending)|;
    var more := (if pending then " " else "") + cell.text;
    assert Separated(text, pending) + cell.text == text + more;
    assert (text + more)[start..start + |cell.text|] == cell.text;
    AllShowMore(text, more, spans, lines, places, added, p);
    SameNumber(text, spans, lines, places);
    if spans != [] {
      assert pending ==> (text + more)[|text|] == ' ';
    }
    AllFollowMore(text, more, spans, places, added, p);
  }

  lemma SameNumber(text: string, spans: seq<Span>, lines: seq<Line>, places: seq<Place>)
    requires Spells(text, spans, lines, places)
    ensures |spans| == |places|
    ensures forall k {:trigger places[k]} :: 0 <= k < |places| ==> At(lines, places[k]) && !lines[places[k].row][places[k].index].space
    ensures spans == [] <==> text == ""
  {
    forall k {:trigger places[k]} | 0 <= k < |places| ensures At(lines, places[k]) && !lines[places[k].row][places[k].index].space {
      assert Shows(text, spans[k], lines, places[k]);
    }
    if spans != [] {
      assert Shows(text, spans[0], lines, places[0]);
    }
  }

  lemma ColumnsNext(cells: Line, index: nat)
    requires index < |cells|
    ensures Columns(cells[..index + 1]) == Columns(cells[..index]) + cells[index].width
  {
    assert cells[..index + 1][..index] == cells[..index];
  }

  lemma CellReached(d: Draft, lines: seq<Line>, row: nat, index: nat, places: seq<Place>)
    requires Reached(d, lines, row, index, places) && index < |lines[row]| && lines[row][index].text != ""
    ensures Reached(AddCell(d, lines[row][index], row), lines, row, index + 1,
                    places + if lines[row][index].space then [] else [Place(row, index)])
  {
    hide Columns, Spells;
    var cell, p := lines[row][index], Place(row, index);
    ColumnsNext(lines[row], index);
    SameNumber(d.text, d.spans, lines, places);
    if cell.space {
      assert places + [] == places;
    } else {
      hide Separated;
      var start := |Separated(d.text, d.pending)|;
      SpellsMore(d.text, d.spans, lines, places, d.pending, p,
                 Span(start, start + |cell.text|, row, d.column, d.column + cell.width, false));
    }
  }

  lemma {:induction false} CellsReached(d: Draft, lines: seq<Line>, row: nat, index: nat, places: seq<Place>)
    requires row < |lines| && Reached(d, lines, row, 0, places) && index <= |lines[row]| && ProperLine(lines[row])
    ensures Reached(AddCells(d, lines[row][..index], row), lines, row, index, places + Visible(lines[row][..index], row))
    decreases index
  {
    hide Reached, AddCell;
    if index == 0 {
      assert lines[row][..0] == [] && places + [] == places;
    } else {
      CellsReached(d, lines, row, index - 1, places);
      var front := lines[row][..index - 1];
      assert lines[row][..index][..index - 1] == front;
      assert Proper(lines[row][index - 1]);
      CellReached(AddCells(d, front, row), lines, row, index - 1, places + Visible(front, row));
      var added := if lines[row][index - 1].space then [] else [Place(row, index - 1)];
      assert places + Visible(front, row) + added == places + (Visible(front, row) + added);
    }
  }

  predicate Starts(d: Draft, lines: seq<Line>, n: nat, places: seq<Place>) {
    && n <= |lines| && d.column == 0 && Spells(d.text, d.spans, lines, places) && (d.pending <==> places != [])
    && (places != [] ==> places[|places| - 1].row < n)
  }

  lemma LineEnds(d: Draft, lines: seq<Line>, row: nat, places: seq<Place>)
    requires row < |lines| && Reached(d, lines, row, |lines[row]|, places)
    ensures Starts(EndLine(d), lines, row + 1, places)
  {
    SameNumber(d.text, d.spans, lines, places);
  }

  lemma {:induction false} LinesSpell(lines: seq<Line>, n: nat)
    requires n <= |lines| && ProperLines(lines)
    ensures Starts(AddLines(lines[..n]), lines, n, AllVisible(lines[..n]))
    decreases n
  {
    hide Spells;
    if n == 0 {
      NothingSpelled(lines);
    } else {
      var row := n - 1;
      assert lines[..n][..row] == lines[..row];
      LinesSpell(lines, row);
      var d, places := AddLines(lines[..row]), AllVisible(lines[..row]);
      assert ProperLine(lines[row]);
      assert lines[row][..0] == [];
      CellsReached(d, lines, row, |lines[row]|, places);
      assert lines[row][..|lines[row]|] == lines[row];
      LineEnds(AddCells(d, lines[row], row), lines, row, places + Visible(lines[row], row));
    }
  }

  lemma NothingSpelled(lines: seq<Line>)
    ensures Spells("", [], lines, [])
  {
  }

  /** The searched text is the visible cells of the transcript, row by row and column by column, neighbours
      one directly after the other and with one blank between all others; and every span is the place of
      its cell. */
  lemma CorpusSpells(lines: seq<Line>)
    requires ProperLines(lines)
    ensures Spells(SimpleCorpus(lines).text, SimpleCorpus(lines).spans, lines, AllVisible(lines))
  {
    LinesSpell(lines, |lines|);
    assert lines[..|lines|] == lines;
  }

  predicate Before(p: Place, q: Place) {
    p.row < q.row || (p.row == q.row && p.index < q.index)
  }

  lemma {:induction false} VisibleListed(cells: Line, row: nat)
    ensures var ps := Visible(cells, row);
            && (forall k :: 0 <= k < |ps| ==> ps[k].row == row && ps[k].index < |cells| && !cells[ps[k].index].space)
            && (forall j, k :: 0 <= j < k < |ps| ==> ps[j].index < ps[k].index)
            && (forall i :: 0 <= i < |cells| && !cells[i].space ==> Place(row, i) in ps)
    decreases |cells|
  {
    if cells != [] {
      VisibleListed(cells[..|cells| - 1], row);
    }
  }

  lemma {:induction false} PlacesAreVisible(lines: seq<Line>)
    ensures forall p :: p in AllVisible(lines) ==> At(lines, p) && !lines[p.row][p.index].space
    decreases |lines|
  {
    if lines != [] {
      var n := |lines| - 1;
      PlacesAreVisible(lines[..n]);
      VisibleListed(lines[n], n);
      hide Visible;
    }
  }

  predicate Sorted(places: seq<Place>) {
    forall j, k :: 0 <= j < k < |places| ==> Before(places[j], places[k])
  }

  lemma {:induction false} PlacesInOrder(lines: seq<Line>)
    ensures Sorted(AllVisible(lines))
    decreases |lines|
  {
    if lines != [] {
      var n := |lines| - 1;
      PlacesInOrder(lines[..n]);
      var front, more := AllVisible(lines[..n]), Visible(lines[n], n);
      VisibleListed(lines[n], n);
      hide Visible;
      forall j, k | 0 <= j < k < |front + more| ensures Before((front + more)[j], (front + more)[k]) {
        if k < |front| {
          assert Before(front[j], front[k]);
        } else if j < |front| {
          PlacesAreVisible(lines[..n]);
          assert front[j] in front && more[k - |front|].row == n;
        } else {
          assert more[j - |front|].index < more[k - |front|].index;
          assert more[j - |front|].row == n && more[k - |front|].row == n;
        }
      }
      assert AllVisible(lines) == front + more;
    }
  }

  lemma {:induction false} VisibleIsPlaced(lines: seq<Line>, p: Place)
    requires At(lines, p) && !lines[p.row][p.index].space
    ensures p in AllVisible(lines)
    decreases |lines|
  {
    var n := |lines| - 1;
    if p.row == n {
      VisibleListed(lines[n], n);
    } else {
      VisibleIsPlaced(lines[..n], p);
    }
  }

  /** Exactly the visible cells are listed, in reading order, each once. */
  lemma ListedIffVisible(lines: seq<Line>, p: Place)
    ensures p in AllVisible(lines) <==> At(lines, p) && !lines[p.row][p.index].space
    ensures Sorted(AllVisible(lines))
  {
    PlacesAreVisible(lines);
    PlacesInOrder(lines);
    if At(lines, p) && !lines[p.row][p.index].space {
      VisibleIsPlaced(lines, p);
    }
  }

  // ---- what a match lights up ------------------------------------------------------------------

  predicate Covers(segments: seq<Segment>, row: nat, column: int) {
    exists j :: 0 <= j < |segments| && segments[j].row == row && segments[j].startCol <= column < segments[j].endCol
  }

  /** Some span in this column touches the match. */
  predicate Lit(spans: seq<Span>, m: Interval, row: nat, column: int) {
    exists k :: 0 <= k < |spans| && Touches(spans[k], m) && spans[k].row == row && spans[k].startCol <= column < spans[k].endCol
  }

  /** One span is to the left of the other, or above it. */
  predicate Precedes(a: Span, b: Span) {
    a.row < b.row || (a.row == b.row && a.endCol <= b.startCol)
  }

  predicate InReadingOrder(spans: seq<Span>) {
    && (forall k :: 0 <= k < |spans| ==> !spans[k].linear && spans[k].startCol <= spans[k].endCol)
    && (forall j, k :: 0 <= j < k < |spans| ==> Precedes(spans[j], spans[k]))
  }

  /** Segments go down the screen and to the right, and no two touch each other. */
  predicate Apart(segments: seq<Segment>) {
    && (forall j {:trigger segments[j]} :: 0 <= j < |segments| ==> segments[j].startCol <= segments[j].endCol)
    && (forall j {:trigger segments[j]} :: 0 < j < |segments| ==>
          || segments[j - 1].row < segments[j].row
          || (segments[j - 1].row == segments[j].row && segments[j - 1].endCol < segments[j].startCol))
  }

  /** The last segment ends where one of these spans does. */
  predicate EndsWith(segments: seq<Segment>, spans: seq<Span>) {
    segments != [] ==>
      var last := segments[|segments| - 1];
      exists k :: 0 <= k < |spans| && spans[k].row == last.row && spans[k].endCol == last.endCol
  }

  /** This segment covers this column. */
  predicate CoversAt(segment: Segment, row: nat, column: int) {
    segment.row == row && segment.startCol <= column < segment.endCol
  }

  lemma CoversAppended(segments: seq<Segment>, last: Segment, r: nat, c: int)
    ensures Covers(segments + [last], r, c) <==> Covers(segments, r, c) || CoversAt(last, r, c)
  {
    var after := segments + [last];
    if Covers(segments, r, c) {
      var j :| 0 <= j < |segments| && segments[j].row == r && segments[j].startCol <= c < segments[j].endCol;
      assert after[j] == segments[j];
    }
    if CoversAt(last, r, c) {
      assert after[|segments|] == last;
    }
    if Covers(after, r, c) {
      var j :| 0 <= j < |after| && after[j].row == r && after[j].startCol <= c < after[j].endCol;
      assert j < |segments| ==> after[j] == segments[j];
    }
  }

  lemma ApartAppended(segments: seq<Segment>, last: Segment)
    requires Apart(segments) && last.startCol <= last.endCol
    requires segments != [] ==>
               var before := segments[|segments| - 1];
               before.row < last.row || (before.row == last.row && before.endCol < last.startCol)
    ensures Apart(segments + [last])
  {
    var after := segments + [last];
    forall j {:trigger after[j]} | 0 < j < |after|
      ensures || after[j - 1].row < after[j].row || (after[j - 1].row == after[j].row && after[j - 1].endCol < after[j].startCol)
    {
      assert j < |segments| ==> after[j] == segments[j];
      assert after[j - 1] == segments[j - 1];
    }
  }

  lemma ApartFront(segments: seq<Segment>)
    requires Apart(segments) && segments != []
    ensures var n := |segments| - 1;
            && Apart(segments[..n]) && segments[n].startCol <= segments[n].endCol
            && (n > 0 ==> segments[n - 1].row < segments[n].row
                          || (segments[n - 1].row == segments[n].row && segments[n - 1].endCol < segments[n].startCol))
  {
    var n := |segments| - 1;
    assert segments[n].startCol <= segments[n].endCol;
    forall j {:trigger segments[..n][j]} | 0 <= j < n
      ensures segments[..n][j].startCol <= segments[..n][j].endCol
      ensures j > 0 ==> segments[j - 1].row < segments[..n][j].row
                        || (segments[j - 1].row == segments[..n][j].row && segments[j - 1].endCol < segments[..n][j].startCol)
    {
      assert segments[..n][j] == segments[j];
    }
  }

  lemma JoinCovers(segments: seq<Segment>, row: nat, startCol: int, endCol: int, r: nat, c: int)
    requires Apart(segments) && startCol <= endCol
    requires segments != [] ==>
               var last := segments[|segments| - 1]; last.row < row || (last.row == row && last.endCol <= startCol)
    ensures Apart(Join(segments, row, startCol, endCol))
    ensures Covers(Join(segments, row, startCol, endCol), r, c) <==> Covers(segments, r, c) || (r == row && startCol <= c < endCol)
  {
    hide Apart, Covers;
    if segments != [] && segments[|segments| - 1].row == row && startCol <= segments[|segments| - 1].endCol {
      var n := |segments| - 1;
      var longer := segments[n].(endCol := endCol);
      assert Join(segments, row, startCol, endCol) == segments[..n] + [longer];
      assert segments == segments[..n] + [segments[n]];
      ApartFront(segments);
      ApartAppended(segments[..n], longer);
      CoversAppended(segments[..n], segments[n], r, c);
      CoversAppended(segments[..n], longer, r, c);
    } else {
      ApartAppended(segments, Segment(row, startCol, endCol));
      CoversAppended(segments, Segment(row, startCol, endCol), r, c);
    }
  }

  lemma LitNext(spans: seq<Span>, last: Span, m: Interval, row: nat, column: int)
    ensures Lit(spans + [last], m, row, column) <==>
              Lit(spans, m, row, column) || (Touches(last, m) && last.row == row && last.startCol <= column < last.endCol)
  {
    var more := spans + [last];
    if Lit(spans, m, row, column) {
      var k :| 0 <= k < |spans| && Touches(spans[k], m) && spans[k].row == row && spans[k].startCol <= column < spans[k].endCol;
      assert more[k] == spans[k];
    }
    if Touches(last, m) && last.row == row && last.startCol <= column < last.endCol {
      assert more[|spans|] == last;
    }
    if Lit(more, m, row, column) {
      var k :| 0 <= k < |more| && Touches(more[k], m) && more[k].row == row && more[k].startCol <= column < more[k].endCol;
      assert k < |spans| ==> more[k] == spans[k];
    }
  }

  lemma EndsWithMore(segments: seq<Segment>, spans: seq<Span>, span: Span, m: Interval)
    requires EndsWith(segments, spans) && !span.linear && span.startCol <= span.endCol
    requires segments != [] ==>
               var last := segments[|segments| - 1]; last.row == span.row ==> last.endCol <= span.startCol
    ensures EndsWith(AddSpan(segments, span, m), spans + [span])
  {
    var after, more := AddSpan(segments, span, m), spans + [span];
    if Touches(span, m) {
      assert more[|spans|] == span;
    } else if segments != [] {
      var last := segments[|segments| - 1];
      var k :| 0 <= k < |spans| && spans[k].row == last.row && spans[k].endCol == last.endCol;
      assert more[k] == spans[k];
    }
  }

  lemma EndsBefore(segments: seq<Segment>, spans: seq<Span>, span: Span)
    requires EndsWith(segments, spans) && segments != [] && forall k :: 0 <= k < |spans| ==> Precedes(spans[k], span)
    ensures var last := segments[|segments| - 1]; last.row < span.row || (last.row == span.row && last.endCol <= span.startCol)
  {
  }

  predicate CoversExactly(segments: seq<Segment>, spans: seq<Span>, m: Interval, row: nat, column: int) {
    && Apart(segments) && EndsWith(segments, spans)
    && (Covers(segments, row, column) <==> Lit(spans, m, row, column))
  }

  lemma OneMoreSpan(segments: seq<Segment>, spans: seq<Span>, span: Span, m: Interval, row: nat, column: int)
    requires CoversExactly(segments, spans, m, row, column) && !span.linear && span.startCol <= span.endCol
    requires forall k :: 0 <= k < |spans| ==> Precedes(spans[k], span)
    ensures CoversExactly(AddSpan(segments, span, m), spans + [span], m, row, column)
  {
    if segments != [] {
      EndsBefore(segments, spans, span);
    }
    LitNext(spans, span, m, row, column);
    hide Apart, Covers, Lit, Join;
    EndsWithMore(segments, spans, span, m);
    hide EndsWith;
    if Touches(span, m) {
      JoinCovers(segments, span.row, span.startCol, span.endCol, row, column);
    }
  }

  lemma CoversNothing(m: Interval, row: nat, column: int)
    ensures CoversExactly([], [], m, row, column)
  {
  }

  lemma FrontInOrder(spans: seq<Span>)
    requires InReadingOrder(spans) && spans != []
    ensures var n := |spans| - 1;
            && InReadingOrder(spans[..n]) && !spans[n].linear && spans[n].startCol <= spans[n].endCol
            && forall k :: 0 <= k < n ==> Precedes(spans[..n][k], spans[n])
  {
  }

  /** The segments of a match cover exactly the columns of the spans it touches, and no two of them touch. */
  lemma {:induction false} SegmentsCover(spans: seq<Span>, m: Interval, row: nat, column: int)
    requires InReadingOrder(spans)
    ensures CoversExactly(AddSpans([], spans, m), spans, m, row, column)
    decreases |spans|
  {
    hide CoversExactly, InReadingOrder, AddSpan, Precedes;
    if spans == [] {
      CoversNothing(m, row, column);
    } else {
      var n := |spans| - 1;
      assert spans == spans[..n] + [spans[n]];
      FrontInOrder(spans);
      SegmentsCover(spans[..n], m, row, column);
      OneMoreSpan(AddSpans([], spans[..n], m), spans[..n], spans[n], m, row, column);
    }
  }

  predicate AnyTouches(spans: seq<Span>, m: Interval) {
    exists k :: 0 <= k < |spans| && Touches(spans[k], m)
  }

  lemma {:induction false} SegmentsIff(spans: seq<Span>, m: Interval)
    ensures AddSpans([], spans, m) != [] <==> AnyTouches(spans, m)
    decreases |spans|
  {
    if spans != [] {
      var n := |spans| - 1;
      SegmentsIff(spans[..n], m);
      if AnyTouches(spans[..n], m) {
        var k :| 0 <= k < n && Touches(spans[..n][k], m);
        assert Touches(spans[k], m);
      }
      if AnyTouches(spans, m) {
        var k :| 0 <= k < |spans| && Touches(spans[k], m);
        assert k < n ==> Touches(spans[..n][k], m);
      }
    }
  }

  /** How many of these matches touch any span. */
  function Shown(spans: seq<Span>, ms: seq<Interval>): nat
    decreases |ms|
  {
    if ms == [] then 0
    else Shown(spans, ms[..|ms| - 1]) + if AnyTouches(spans, ms[|ms| - 1]) then 1 else 0
  }

  /** A search lists exactly the matches that touch something visible, in their order. */
  lemma {:induction false} MatchesInOrder(spans: seq<Span>, ms: seq<Interval>, k: nat)
    requires k < |ms| && AnyTouches(spans, ms[k])
    ensures Shown(spans, ms[..k]) < |AllSegments(spans, ms)| == Shown(spans, ms)
    ensures AllSegments(spans, ms)[Shown(spans, ms[..k])] == AddSpans([], spans, ms[k])
    decreases |ms|
  {
    hide AnyTouches, AddSpans;
    var n := |ms| - 1;
    SegmentsIff(spans, ms[n]);
    AsManyAsShown(spans, ms[..n]);
    if k < n {
      assert ms[..n][..k] == ms[..k];
      MatchesInOrder(spans, ms[..n], k);
    }
  }

  lemma {:induction false} AsManyAsShown(spans: seq<Span>, ms: seq<Interval>)
    ensures |AllSegments(spans, ms)| == Shown(spans, ms)
    decreases |ms|
  {
    hide AnyTouches, AddSpans;
    if ms != [] {
      AsManyAsShown(spans, ms[..|ms| - 1]);
      SegmentsIff(spans, ms[|ms| - 1]);
    }
  }

  // ---- from matches to the screen --------------------------------------------------------------

  lemma {:induction false} ColumnsGrow(cells: Line, i: nat, j: nat)
    requires i < j <= |cells|
    ensures Columns(cells[..i]) + cells[i].width <= Columns(cells[..j])
    decreases j
  {
    ColumnsNext(cells, j - 1);
    if i < j - 1 {
      ColumnsGrow(cells, i, j - 1);
    }
  }

  lemma SpansInOrder(text: string, spans: seq<Span>, lines: seq<Line>, places: seq<Place>)
    requires AllShow(text, spans, lines, places)
    requires Sorted(places)
    ensures InReadingOrder(spans)
  {
    hide Columns;
    forall k | 0 <= k < |spans| ensures !spans[k].linear && spans[k].startCol <= spans[k].endCol {
      assert Shows(text, spans[k], lines, places[k]);
    }
    forall j, k | 0 <= j < k < |spans| ensures Precedes(spans[j], spans[k]) {
      assert Shows(text, spans[j], lines, places[j]) && Shows(text, spans[k], lines, places[k]);
      assert Before(places[j], places[k]);
      if places[j].row == places[k].row {
        ColumnsGrow(lines[places[j].row], places[j].index, places[k].index);
      }
    }
  }

  /** The columns of the screen that a cell takes up. */
  predicate Occupies(lines: seq<Line>, p: Place, row: nat, column: int) {
    At(lines, p) && p.row == row
    && Columns(lines[p.row][..p.index]) <= column < Columns(lines[p.row][..p.index]) + lines[p.row][p.index].width
  }

  /** Some visible cell in this column has part of its text in the match. */
  predicate CellTouched(lines: seq<Line>, places: seq<Place>, spans: seq<Span>, m: Interval, row: nat, column: int) {
    |places| == |spans|
    && exists k :: 0 <= k < |places| && Touches(spans[k], m) && Occupies(lines, places[k], row, column)
  }

  lemma LitIffTouched(text: string, spans: seq<Span>, lines: seq<Line>, places: seq<Place>, m: Interval, row: nat, column: int)
    requires AllShow(text, spans, lines, places)
    ensures Lit(spans, m, row, column) <==> CellTouched(lines, places, spans, m, row, column)
  {
    hide Columns, Touches;
    if Lit(spans, m, row, column) {
      var k :| 0 <= k < |spans| && Touches(spans[k], m) && spans[k].row == row && spans[k].startCol <= column < spans[k].endCol;
      assert Shows(text, spans[k], lines, places[k]);
      assert Occupies(lines, places[k], row, column);
    }
    if CellTouched(lines, places, spans, m, row, column) {
      var k :| 0 <= k < |places| && Touches(spans[k], m) && Occupies(lines, places[k], row, column);
      assert Shows(text, spans[k], lines, places[k]);
    }
  }

  /** A match lights up a column of the screen exactly if the visible cell that stands there has part of its
      text in the match; and no two segments of a match touch. */
  lemma MatchLightsUp(lines: seq<Line>, m: Interval, row: nat, column: int)
    requires ProperLines(lines)
    ensures var segments, spans := AddSpans([], SimpleCorpus(lines).spans, m), SimpleCorpus(lines).spans;
            && Apart(segments)
            && (Covers(segments, row, column) <==> CellTouched(lines, AllVisible(lines), spans, m, row, column))
  {
    hide Sorted, AddSpans, AllVisible, SimpleCorpus, Apart, Covers, AllShow, AllFollow, InReadingOrder, CellTouched, Lit;
    var text, spans, places := SimpleCorpus(lines).text, SimpleCorpus(lines).spans, AllVisible(lines);
    CorpusSpells(lines);
    ListedIffVisible(lines, Place(0, 0));
    SpansInOrder(text, spans, lines, places);
    SegmentsCover(spans, m, row, column);
    LitIffTouched(text, spans, lines, places, m, row, column);
  }

  // ---- the query -------------------------------------------------------------------------------

  /** The runs of characters other than white space. */
  function Words(query: string): (words: seq<string>)
    ensures query != "" && !IsSpace(query[|query| - 1]) ==> words != []
    decreases |query|
  {
    if query == "" then []
    else
      var front, last := query[..|query| - 1], query[|query| - 1];
      var before := Words(front);
      if IsSpace(last) then before
      else if front == "" || IsSpace(front[|front| - 1]) then before + [[last]]
      else before[..|before| - 1] + [before[|before| - 1] + [last]]
  }

  lemma WordsNext(query: string, c: char)
    ensures Words(query + [c])
         == if IsSpace(c) then Words(query)
            else if query == "" || IsSpace(query[|query| - 1]) then Words(query) + [[c]]
            else Words(query)[..|Words(query)| - 1] + [Words(query)[|Words(query)| - 1] + [c]]
  {
    assert (query + [c])[..|query|] == query;
  }

  /** Normalising a query leaves its words as they are, in their order. */
  lemma {:induction false} NormalizingKeepsWords(query: string)
    ensures Words(NormalizeQuery(query)) == Words(query)
    decreases |query|
  {
    if query != "" {
      var front, last := query[..|query| - 1], query[|query| - 1];
      var rest := NormalizeQuery(front);
      assert query == front + [last];
      NormalizingKeepsWords(front);
      NormalizedIsNormal(front);
      WordsNext(front, last);
      if !IsSpace(last) {
        if front == "" || IsSpace(front[|front| - 1]) {
          WordsNext(rest, ' ');
          WordsNext(rest + " ", last);
          WordsNext(rest, last);
        } else {
          WordsNext(rest, last);
        }
      }
    }
  }
}
