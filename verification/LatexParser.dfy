/** The parser of formulas and how it numbers layout nodes. Which symbol a command stands for and how a
    script, root, accent or inline fraction is written is left open; the recursion, the cursor, environments
    with their rows and cells, and the order in which nodes are pushed are the program's. */
module LatexParsing {
  import opened Wrappers
  import opened LatexLayout

  /** All markers are below `n`. */
  predicate MarksBelow(t: Text, n: nat) {
    forall i {:trigger t[i]} :: 0 <= i < |t| && t[i].Mark? ==> t[i].node < n
  }

  predicate NodePostorder(node: Node, i: nat) {
    && (node.Fraction? ==> MarksBelow(node.numerator, i) && MarksBelow(node.denominator, i))
    && (node.Matrix? ==> node.rows != [])
  }

  /** Every node is numbered after the nodes its text mentions. */
  predicate Postorder(nodes: seq<Node>) {
    forall i {:trigger nodes[i]} :: 0 <= i < |nodes| ==> NodePostorder(nodes[i], i)
  }

  lemma PostorderIsNumbered(nodes: seq<Node>, t: Text)
    requires Postorder(nodes) && MarksBelow(t, |nodes|)
    ensures Numbered(nodes) && Mentions(t, |nodes|, |nodes|)
  {
    forall i | 0 <= i < |nodes| ensures NodeNumbered(nodes[i], i, |nodes|) {
      assert NodePostorder(nodes[i], i);
    }
  }

  /** The fraction at place `k - 1` of the path mentions the node at place `k`. */
  predicate Mentioned(nodes: seq<Node>, path: seq<nat>, k: nat) {
    && 0 < k < |path| && path[k - 1] < |nodes| && path[k] < |nodes|
    && nodes[path[k - 1]].Fraction?
    && (Mark(path[k]) in nodes[path[k - 1]].numerator || Mark(path[k]) in nodes[path[k - 1]].denominator)
  }

  /** Node numbers in the order the nodes were pushed never reach themselves: whatever node a fraction
      mentions, the nodes that one mentions are smaller still. */
  lemma {:induction false} NoNodeMentionsItself(nodes: seq<Node>, path: seq<nat>)
    requires Postorder(nodes) && |path| > 1
    requires forall k :: 0 < k < |path| ==> Mentioned(nodes, path, k)
    ensures path[|path| - 1] < path[0]
    decreases |path|
  {
    var n := |path| - 1;
    assert Mentioned(nodes, path, n);
    assert NodePostorder(nodes[path[n - 1]], path[n - 1]);
    if n > 1 {
      forall k | 0 < k < n ensures Mentioned(nodes, path[..n], k) {
        assert Mentioned(nodes, path, k);
      }
      NoNodeMentionsItself(nodes, path[..n]);
    }
  }

  lemma MoreRows(rows: seq<seq<Text>>, row: seq<Text>, m: nat, n: nat)
    requires RowsBelow(rows, m) && LinesBelow(row, n) && m <= n
    ensures RowsBelow(rows + [row], n)
  {
    forall r, c | 0 <= r < |rows + [row]| && 0 <= c < |(rows + [row])[r]|
      ensures MarksBelow((rows + [row])[r][c], n)
    {
      assert r < |rows| ==> MarksBelow(rows[r][c], m);
      assert r == |rows| ==> MarksBelow(row[c], n);
    }
  }

  // ---- what happens to nodes -------------------------------------------------------------------

  const FullStop := Char('.')

  function WithoutStops(t: Text): Text
    decreases |t|
  {
    if t != [] && t[|t| - 1] == FullStop then WithoutStops(t[..|t| - 1]) else t
  }

  /** The node but for the full stops at the end of a matrix. */
  function Bare(node: Node): (bare: Node)
    ensures bare.Matrix? <==> node.Matrix?
  {
    if node.Matrix? && node.rows != [] then
      var last := |node.rows| - 1;
      Matrix(node.rows[..last] + [WithoutStops(node.rows[last])])
    else node
  }

  /** Nodes stay where they are and what they are, but a matrix may get full stops; without display, only
      matrices are added. */
  predicate Kept(before: seq<Node>, after: seq<Node>, display: bool) {
    && |before| <= |after|
    && (forall i {:trigger after[i]} :: 0 <= i < |before| ==> Bare(after[i]) == Bare(before[i]))
    && (!display ==> forall i {:trigger after[i]} :: |before| <= i < |after| ==> after[i].Matrix?)
  }

  lemma KeptTwice(a: seq<Node>, b: seq<Node>, c: seq<Node>, display: bool)
    requires Kept(a, b, display) && Kept(b, c, display)
    ensures Kept(a, c, display)
  {
    forall i {:trigger c[i]} | 0 <= i < |c|
      ensures if i < |a| then Bare(c[i]) == Bare(a[i]) else display || c[i].Matrix?
    {
      assert i < |b| ==> Bare(c[i]) == Bare(b[i]);
    }
  }

  class NodeList {
    var nodes: seq<Node>

    constructor ()
      ensures nodes == []
    {
      nodes := [];
    }

    method Push(node: Node) returns (mark: Text)
      requires Postorder(nodes) && NodePostorder(node, |nodes|)
      modifies this
      ensures Postorder(nodes) && nodes == old(nodes) + [node]
      ensures mark == [Mark(|old(nodes)|)] && MarksBelow(mark, |nodes|)
    {
      mark := [Mark(|nodes|)];
      nodes := nodes + [node];
    }
  }

  datatype Kind = Symbol | Negative | Nested | OneArgument | TwoArguments | LimitOperator | Unknown

  predicate Letter(c: char) {
    'a' <= c <= 'z' || 'A' <= c <= 'Z'
  }

  predicate Space(c: char) {
    IsBlank(Char(c))
  }

  /** Some text that takes its markers from the given one: trimming, collapsing blanks, scripts, roots,
      accents and so on all do. */
  method Rework(t: Text) returns (r: Text)
    ensures forall n :: MarksBelow(t, n) ==> MarksBelow(r, n)
  {
    r := [];
    var length: nat :| true;
    for i := 0 to length
      invariant forall n :: MarksBelow(t, n) ==> MarksBelow(r, n)
    {
      var c: char, keep: bool := *, *;
      var k: nat :| true;
      if keep && k < |t| {
        r := r + [t[k]];
      } else {
        r := r + [Char(c)];
      }
    }
  }

  function AsText(s: string): (t: Text)
    ensures MarksBelow(t, 0)
  {
    seq(|s|, i requires 0 <= i < |s| => Char(s[i]))
  }

  lemma MoreNodes(t: Text, m: nat, n: nat)
    requires MarksBelow(t, m) && m <= n
    ensures MarksBelow(t, n)
  {
  }

  lemma JoinMarks(a: Text, b: Text, m: nat, n: nat)
    requires MarksBelow(a, m) && MarksBelow(b, n) && m <= n
    ensures MarksBelow(a + b, n)
  {
  }

  lemma TrimMarks(t: Text, n: nat)
    requires MarksBelow(t, n)
    ensures MarksBelow(TrimEnd(t), n)
  {
    TrimEndTakesBlanks(t);
  }

  function Trim(t: Text): Text {
    TrimStart(TrimEnd(t))
  }

  lemma {:induction false} TrimStartMarks(t: Text, n: nat)
    requires MarksBelow(t, n)
    ensures MarksBelow(TrimStart(t), n)
    decreases |t|
  {
    if t != [] && IsBlank(t[0]) {
      assert forall i :: 0 <= i < |t| - 1 ==> t[1..][i] == t[i + 1];
      TrimStartMarks(t[1..], n);
    }
  }

  lemma TrimmedMarks(t: Text, n: nat)
    requires MarksBelow(t, n)
    ensures MarksBelow(Trim(t), n)
  {
    TrimMarks(t, n);
    TrimStartMarks(TrimEnd(t), n);
  }

  // ---- strings ---------------------------------------------------------------------------------

  predicate StartsAt(s: string, word: string, k: nat) {
    k + |word| <= |s| && s[k..k + |word|] == word
  }

  predicate SpaceOrTab(c: char) {
    c == ' ' || c == '\t'
  }

  /** `s.indexOf(word, from)` */
  method IndexOf(s: string, word: string, from: nat) returns (found: Option<nat>)
    ensures found.Some? ==>
              from <= found.value && StartsAt(s, word, found.value)
              && forall k :: from <= k < found.value ==> !StartsAt(s, word, k)
    ensures found.None? ==> forall k: nat :: from <= k ==> !StartsAt(s, word, k)
  {
    var i := from;
    while i <= |s|
      invariant from <= i && forall k :: from <= k < i ==> !StartsAt(s, word, k)
    {
      if StartsAt(s, word, i) {
        return Some(i);
      }
      i := i + 1;
    }
    found := None;
  }

  predicate NoLonger(parts: seq<string>, length: nat) {
    forall i {:trigger parts[i]} :: 0 <= i < |parts| ==> |parts[i]| <= length
  }

  const Break: string := "\\\\"

  /** Where the distance in brackets ends that stands at this place, if one does. */
  function AfterDistance(body: string, at: nat): (after: nat)
    requires at <= |body|
    ensures at <= after <= |body|
  {
    if at < |body| && body[at] == '[' && DistanceEnd(body, at + 1) < |body| && body[DistanceEnd(body, at + 1)] == ']' then
      DistanceEnd(body, at + 1) + 1
    else at
  }

  function DistanceEnd(body: string, i: nat): (end: nat)
    requires i <= |body|
    ensures i <= end <= |body| && (end < |body| ==> body[end] == ']' || body[end] == '\n')
    ensures forall k :: i <= k < end ==> body[k] != ']' && body[k] != '\n'
    decreases |body| - i
  {
    if i < |body| && body[i] != ']' && body[i] != '\n' then DistanceEnd(body, i + 1) else i
  }

  /** The rows of a body from `start` on, if none ends before `i`. */
  function RowsFrom(body: string, start: nat, i: nat): (rows: seq<string>)
    requires start <= i <= |body|
    ensures rows != []
    decreases |body| - i
  {
    if i == |body| then [body[start..]]
    else if StartsAt(body, Break, i) then
      [body[start..i]] + RowsFrom(body, AfterDistance(body, i + 2), AfterDistance(body, i + 2))
    else RowsFrom(body, start, i + 1)
  }

  /** `splitEnvironmentRows`: rows end at two backslashes and a distance in brackets after them, if any. */
  method SplitRows(body: string) returns (rows: seq<string>)
    ensures rows == RowsFrom(body, 0, 0) && NoLonger(rows, |body|)
  {
    rows := [];
    var start, i := 0, 0;
    while i < |body|
      invariant 0 <= start <= i <= |body| && NoLonger(rows, |body|)
      invariant rows + RowsFrom(body, start, i) == RowsFrom(body, 0, 0)
      decreases |body| - i
    {
      if StartsAt(body, Break, i) {
        rows := rows + [body[start..i]];
        i := AfterDistance(body, i + 2);
        start := i;
      } else {
        i := i + 1;
      }
    }
    rows := rows + [body[start..]];
  }

  /** Parts with something between each two. */
  function Interleaved(parts: seq<string>, between: seq<string>): string
    requires |parts| == |between| + 1
    decreases |parts|
  {
    if |parts| == 1 then parts[0] else parts[0] + between[0] + Interleaved(parts[1..], between[1..])
  }

  /** A row ends at two backslashes, and at a distance after them: brackets with no line break between. */
  predicate RowEnd(text: string) {
    text == Break
    || (&& |text| > 3 && text[..2] == Break && text[2] == '[' && text[|text| - 1] == ']'
        && forall k :: 3 <= k < |text| - 1 ==> text[k] != ']' && text[k] != '\n')
  }

  predicate Breakless(row: string) {
    forall k {:trigger row[k]} :: 0 <= k < |row| - 1 ==> row[k] != '\\' || row[k + 1] != '\\'
  }

  lemma BreakAt(s: string, k: nat)
    ensures StartsAt(s, Break, k) <==> k + 1 < |s| && s[k] == '\\' && s[k + 1] == '\\'
  {
    if k + 1 < |s| {
      assert s[k..k + 2] == [s[k], s[k + 1]];
      assert Break == ['\\', '\\'];
      assert [s[k], s[k + 1]][0] == s[k] && [s[k], s[k + 1]][1] == s[k + 1];
    }
  }

  lemma RowInFront(part: string, end: string, parts: seq<string>, between: seq<string>)
    requires |parts| == |between| + 1
    ensures Interleaved([part] + parts, [end] + between) == part + end + Interleaved(parts, between)
  {
    assert ([part] + parts)[1..] == parts && ([end] + between)[1..] == between;
  }

  lemma ThreeSlices(s: string, a: nat, b: nat, c: nat)
    requires a <= b <= c <= |s|
    ensures s[a..] == s[a..b] + s[b..c] + s[c..]
  {
  }

  lemma OnePart(part: string)
    ensures Interleaved([part], []) == part
  {
  }

  /** The rows and what ends them make up the body. */
  lemma {:induction false} RowsMakeUpBody(body: string, start: nat, i: nat) returns (between: seq<string>)
    requires start <= i <= |body|
    ensures var rows := RowsFrom(body, start, i);
            && |rows| == |between| + 1 && Interleaved(rows, between) == body[start..]
            && (forall r {:trigger between[r]} :: 0 <= r < |between| ==> RowEnd(between[r]))
    decreases |body| - i
  {
    if i == |body| {
      between := [];
      OnePart(body[start..]);
    } else if StartsAt(body, Break, i) {
      hide StartsAt, RowEnd, Interleaved, AfterDistance;
      var next := AfterDistance(body, i + 2);
      var later := RowsMakeUpBody(body, next, next);
      between := [body[i..next]] + later;
      EndIsRowEnd(body, i);
      RowInFront(body[start..i], body[i..next], RowsFrom(body, next, next), later);
      ThreeSlices(body, start, i, next);
    } else {
      between := RowsMakeUpBody(body, start, i + 1);
    }
  }

  /** And no row holds the end of one. */
  lemma {:induction false} RowsHoldNoBreak(body: string, start: nat, i: nat, r: nat)
    requires start <= i <= |body| && forall k :: start <= k < i ==> !StartsAt(body, Break, k)
    requires r < |RowsFrom(body, start, i)|
    ensures Breakless(RowsFrom(body, start, i)[r])
    decreases |body| - i
  {
    if i == |body| {
      SliceIsBreakless(body, start, i);
      assert body[start..i] == body[start..];
    } else if StartsAt(body, Break, i) {
      if r == 0 {
        SliceIsBreakless(body, start, i);
      } else {
        RowsHoldNoBreak(body, AfterDistance(body, i + 2), AfterDistance(body, i + 2), r - 1);
      }
    } else {
      RowsHoldNoBreak(body, start, i + 1, r);
    }
  }

  lemma SliceIsBreakless(body: string, start: nat, end: nat)
    requires start <= end <= |body| && forall k :: start <= k < end ==> !StartsAt(body, Break, k)
    ensures Breakless(body[start..end])
  {
    var row := body[start..end];
    forall k {:trigger row[k]} | 0 <= k < |row| - 1 ensures row[k] != '\\' || row[k + 1] != '\\' {
      BreakAt(body, start + k);
      hide StartsAt;
    }
  }

  lemma EndIsRowEnd(body: string, i: nat)
    requires StartsAt(body, Break, i)
    ensures RowEnd(body[i..AfterDistance(body, i + 2)])
  {
    var next := AfterDistance(body, i + 2);
    var text := body[i..next];
    assert text[..2] == body[i..i + 2];
    if next > i + 2 {
      assert text[2] == body[i + 2] && text[|text| - 1] == body[next - 1];
      forall k | 3 <= k < |text| - 1 ensures text[k] != ']' && text[k] != '\n' {
        assert text[k] == body[i + k];
      }
    } else {
      assert text == text[..2];
    }
  }

  function Ands(n: nat): (ands: seq<string>)
    ensures |ands| == n
  {
    seq(n, _ => "&")
  }

  lemma OneCell(cell: string)
    ensures Interleaved([cell], Ands(0)) == cell
  {
  }

  /** The cells of a row make it up, with `&` between each two and none inside. */
  method SplitCells(row: string) returns (cells: seq<string>)
    ensures NoLonger(cells, |row|) && cells != []
    ensures Interleaved(cells, Ands(|cells| - 1)) == row
    ensures forall c {:trigger cells[c]} :: 0 <= c < |cells| ==> '&' !in cells[c]
  {
    hide Interleaved, Ands;
    cells := [];
    var start := 0;
    OneCell("");
    assert [] + [row[0..0]] == [""];
    for i := 0 to |row|
      invariant start <= i && NoLonger(cells, |row|) && '&' !in row[start..i]
      invariant forall c {:trigger cells[c]} :: 0 <= c < |cells| ==> '&' !in cells[c]
      invariant Interleaved(cells + [row[start..i]], Ands(|cells|)) == row[..i]
    {
      if row[i] == '&' {
        NextCell(cells, row[start..i]);
        cells := cells + [row[start..i]];
        start := i + 1;
        assert row[start..i + 1] == "";
      } else {
        LongerCell(cells, row[start..i], row[i]);
        assert row[start..i] + [row[i]] == row[start..i + 1];
      }
      assert row[..i + 1] == row[..i] + [row[i]];
    }
    cells := cells + [row[start..]];
    assert row[start..|row|] == row[start..] && row[..|row|] == row;
  }

  lemma {:induction false} NextCell(cells: seq<string>, cell: string)
    ensures Interleaved(cells + [cell] + [""], Ands(|cells| + 1))
         == Interleaved(cells + [cell], Ands(|cells|)) + "&"
    decreases |cells|
  {
    var all, ands := cells + [cell] + [""], Ands(|cells| + 1);
    assert ands[1..] == Ands(|cells|);
    if cells == [] {
      assert all[1..] == [""] && ands[1..] == [];
      assert cell + "&" + "" == cell + "&";
    } else {
      assert all[1..] == cells[1..] + [cell] + [""];
      assert (cells + [cell])[1..] == cells[1..] + [cell];
      assert Ands(|cells|)[1..] == Ands(|cells| - 1);
      NextCell(cells[1..], cell);
      var rest := Interleaved(cells[1..] + [cell], Ands(|cells| - 1));
      assert cells[0] + "&" + (rest + "&") == cells[0] + "&" + rest + "&";
    }
  }

  lemma {:induction false} LongerCell(cells: seq<string>, cell: string, c: char)
    ensures Interleaved(cells + [cell + [c]], Ands(|cells|))
         == Interleaved(cells + [cell], Ands(|cells|)) + [c]
    decreases |cells|
  {
    if cells != [] {
      assert (cells + [cell])[1..] == cells[1..] + [cell] && (cells + [cell + [c]])[1..] == cells[1..] + [cell + [c]];
      assert Ands(|cells|)[1..] == Ands(|cells| - 1);
      LongerCell(cells[1..], cell, c);
      var rest := Interleaved(cells[1..] + [cell], Ands(|cells| - 1));
      assert cells[0] + "&" + (rest + [c]) == cells[0] + "&" + rest + [c];
    }
  }

  /** The row without its alignment points; with `paired`, every second one leaves a blank. */
  method WithoutAlignment(row: string, paired: bool) returns (plain: string)
    ensures |plain| <= |row|
  {
    plain := "";
    var points := 0;
    for i := 0 to |row|
      invariant |plain| <= i
    {
      if row[i] != '&' {
        plain := plain + [row[i]];
      } else {
        points := points + 1;
        if paired && points % 2 == 0 {
          plain := plain + " ";
        }
      }
    }
  }

  /** The body without the group it begins with, if any: the column specification. */
  method WithoutGroup(body: string) returns (rest: string)
    ensures |rest| <= |body|
  {
    var i := 0;
    while i < |body| && Space(body[i])
      invariant i <= |body|
    {
      i := i + 1;
    }
    rest := body;
    if i < |body| && body[i] == '{' {
      var end := IndexOf(body, "}", i);
      if end.Some? {
        rest := body[end.value + 1..];
      }
    }
  }

  // ---- cases and matrices ----------------------------------------------------------------------

  predicate RowsBelow(rows: seq<seq<Text>>, n: nat) {
    forall r, c {:trigger rows[r][c]} :: 0 <= r < |rows| && 0 <= c < |rows[r]| ==> MarksBelow(rows[r][c], n)
  }

  predicate LinesBelow(lines: seq<Text>, n: nat) {
    forall r {:trigger lines[r]} :: 0 <= r < |lines| ==> MarksBelow(lines[r], n)
  }

  /** A missing cell is empty. */
  function Cell(row: seq<Text>, c: nat): Text {
    if c < |row| then row[c] else []
  }

  function Columns(rows: seq<seq<Text>>): nat
    decreases |rows|
  {
    if rows == [] then 0 else Max(Columns(rows[..|rows| - 1]), |rows[|rows| - 1]|)
  }

  function ColumnWidth(rows: seq<seq<Text>>, c: nat): (width: nat)
    ensures forall r {:trigger rows[r]} :: 0 <= r < |rows| ==> |Cell(rows[r], c)| <= width
    decreases |rows|
  {
    if rows == [] then 0
    else
      var front := rows[..|rows| - 1];
      assert forall r :: 0 <= r < |front| ==> front[r] == rows[r];
      Max(ColumnWidth(front, c), |Cell(rows[|rows| - 1], c)|)
  }

  // White space that trimming leaves alone.
  const ProtectedSpace := Char('\U{F0002}')

  function Protected(n: nat): (t: Text)
    ensures |t| == n
  {
    seq(n, i => ProtectedSpace)
  }

  const Separator: Text := [Blank, Char('\U{2502}'), Blank]

  /** The first `columns` cells of a row, each padded to the width of its column. */
  function MatrixRow(rows: seq<seq<Text>>, r: nat, columns: nat): Text
    requires r < |rows|
  {
    if columns == 0 then []
    else
      var cell := Cell(rows[r], columns - 1);
      MatrixRow(rows, r, columns - 1) + (if columns > 1 then Separator else []) + cell
        + Protected(ColumnWidth(rows, columns - 1) - |cell|)
  }

  /** Where a column of a matrix begins. */
  function ColumnStart(rows: seq<seq<Text>>, c: nat): nat {
    if c == 0 then 0 else ColumnStart(rows, c - 1) + ColumnWidth(rows, c - 1) + |Separator|
  }

  lemma {:induction false} MatrixRowWidth(rows: seq<seq<Text>>, r: nat, columns: nat)
    requires r < |rows|
    ensures |MatrixRow(rows, r, columns)| == if columns == 0 then 0 else ColumnStart(rows, columns) - |Separator|
  {
    if columns > 0 {
      MatrixRowWidth(rows, r, columns - 1);
    }
  }

  /** A cell and what fills it up to the width of its column. */
  function PaddedCell(rows: seq<seq<Text>>, r: nat, c: nat): (t: Text)
    requires r < |rows|
    ensures |t| == ColumnWidth(rows, c)
  {
    Cell(rows[r], c) + Protected(ColumnWidth(rows, c) - |Cell(rows[r], c)|)
  }

  lemma Regroup<T>(a: seq<T>, b: seq<T>, c: seq<T>, d: seq<T>)
    ensures a + b + c + d == a + b + (c + d)
  {
  }

  lemma RowGrows(rows: seq<seq<Text>>, r: nat, columns: nat)
    requires r < |rows| && columns > 0
    ensures MatrixRow(rows, r, columns)
         == MatrixRow(rows, r, columns - 1) + ((if columns > 1 then Separator else []) + PaddedCell(rows, r, columns - 1))
  {
    var cell := Cell(rows[r], columns - 1);
    var front, fill := MatrixRow(rows, r, columns - 1), Protected(ColumnWidth(rows, columns - 1) - |cell|);
    Regroup(front, if columns > 1 then Separator else [], cell, fill);
    hide ColumnWidth;
    assert front + (if columns > 1 then Separator else []) + (cell + fill)
        == front + ((if columns > 1 then Separator else []) + (cell + fill));
  }

  /** The cells of one column stand one under the other: in every row the cell begins at the column's place,
      and protected space fills it up to the column's width. */
  lemma {:induction false} MatrixColumnsAlign(rows: seq<seq<Text>>, r: nat, columns: nat, c: nat)
    returns (left: Text, right: Text)
    requires r < |rows| && c < columns
    ensures MatrixRow(rows, r, columns) == left + PaddedCell(rows, r, c) + right && |left| == ColumnStart(rows, c)
    ensures |MatrixRow(rows, r, columns)| == ColumnStart(rows, columns) - |Separator|
    decreases columns
  {
    MatrixRowWidth(rows, r, columns);
    MatrixRowWidth(rows, r, columns - 1);
    RowGrows(rows, r, columns);
    hide ColumnWidth, MatrixRow, PaddedCell;
    if c < columns - 1 {
      var right';
      left, right' := MatrixColumnsAlign(rows, r, columns - 1, c);
      right := right' + (Separator + PaddedCell(rows, r, columns - 1));
      Regroup(left, PaddedCell(rows, r, c), right', Separator + PaddedCell(rows, r, columns - 1));
    } else {
      left, right := MatrixRow(rows, r, columns - 1) + (if columns > 1 then Separator else []), [];
      Regroup(MatrixRow(rows, r, columns - 1), if columns > 1 then Separator else [], PaddedCell(rows, r, c), []);
      assert left + PaddedCell(rows, r, c) + [] == left + PaddedCell(rows, r, c);
    }
  }

  lemma {:induction false} MatrixRowMarks(rows: seq<seq<Text>>, r: nat, columns: nat, n: nat)
    requires r < |rows| && RowsBelow(rows, n)
    ensures MarksBelow(MatrixRow(rows, r, columns), n)
  {
    if columns > 0 {
      MatrixRowMarks(rows, r, columns - 1, n);
      assert columns - 1 < |rows[r]| ==> MarksBelow(rows[r][columns - 1], n);
    }
  }

  /** Top, middle and bottom of the left delimiter and of the right one; nothing if it has none. */
  function Delimiters(environment: string): Option<(string, string)> {
    if environment == "pmatrix" then Some(("\U{239B}\U{239C}\U{239D}", "\U{239E}\U{239F}\U{23A0}"))
    else if environment == "bmatrix" then Some(("\U{23A1}\U{23A2}\U{23A3}", "\U{23A4}\U{23A5}\U{23A6}"))
    else if environment == "Bmatrix" then Some(("\U{23A7}\U{23A8}\U{23A9}", "\U{23AB}\U{23AC}\U{23AD}"))
    else if environment == "vmatrix" then Some(("\U{2502}\U{2502}\U{2502}", "\U{2502}\U{2502}\U{2502}"))
    else if environment == "Vmatrix" then Some(("\U{2551}\U{2551}\U{2551}", "\U{2551}\U{2551}\U{2551}"))
    else None
  }

  /** The piece of a delimiter beside row `r` of `rows`; a single row has the top. */
  function Piece(delimiter: string, r: nat, rows: nat): Text {
    if |delimiter| < 3 then []
    else [Char(if r == 0 then delimiter[0] else if r == rows - 1 then delimiter[2] else delimiter[1])]
  }

  function MatrixLine(environment: string, rows: seq<seq<Text>>, r: nat): Text
    requires r < |rows|
  {
    var row := MatrixRow(rows, r, Columns(rows));
    match Delimiters(environment)
    case None => row
    case Some(d) => Piece(d.0, r, |rows|) + [Blank] + row + [Blank] + Piece(d.1, r, |rows|)
  }

  function MatrixLines(environment: string, rows: seq<seq<Text>>): seq<Text> {
    seq(|rows|, r requires 0 <= r < |rows| => MatrixLine(environment, rows, r))
  }

  lemma MatrixLinesMarks(environment: string, rows: seq<seq<Text>>, n: nat)
    requires RowsBelow(rows, n)
    ensures LinesBelow(MatrixLines(environment, rows), n)
  {
    forall r | 0 <= r < |rows| ensures MarksBelow(MatrixLine(environment, rows, r), n) {
      MatrixRowMarks(rows, r, Columns(rows), n);
    }
  }

  function Lower(c: char): char {
    if 'A' <= c <= 'Z' then c - 'A' + 'a' else c
  }

  predicate WordAt(t: Text, word: string) {
    && |word| <= |t|
    && (forall i :: 0 <= i < |word| ==> t[i].Char? && Lower(t[i].c) == word[i])
    && (|word| < |t| ==> !(t[|word|].Char? && (Letter(t[|word|].c) || '0' <= t[|word|].c <= '9' || t[|word|].c == '_')))
  }

  /** One line of a case distinction: the value without its last comma, and the condition. */
  function CaseLine(row: seq<Text>, r: nat, rows: nat): Text {
    var first, condition := Cell(row, 0), Cell(row, 1);
    var value := if first != [] && first[|first| - 1] == Char(',') then first[..|first| - 1] else first;
    var worded := WordAt(condition, "if") || WordAt(condition, "when") || WordAt(condition, "for") || WordAt(condition, "otherwise");
    var delimiter := if r == 0 then '\U{23A7}' else if r == rows - 1 then '\U{23A9}' else '\U{23A8}';
    [Char(delimiter), Blank] + value
      + if condition == [] then [] else (if worded then [Blank] else AsText(" if ")) + condition
  }

  lemma CaseLineMarks(row: seq<Text>, r: nat, rows: nat, n: nat)
    requires forall c {:trigger row[c]} :: 0 <= c < |row| ==> MarksBelow(row[c], n)
    ensures MarksBelow(CaseLine(row, r, rows), n)
  {
    var value, condition := Cell(row, 0), Cell(row, 1);
    assert MarksBelow(value, n) && MarksBelow(condition, n);
    hide WordAt;
  }

  /** Lines one under the other. */
  function Lined(lines: seq<Text>): Text
    decreases |lines|
  {
    if lines == [] then []
    else Lined(lines[..|lines| - 1]) + (if |lines| > 1 then [Char('\n')] else []) + lines[|lines| - 1]
  }

  lemma {:induction false} LinedMarks(lines: seq<Text>, n: nat)
    requires LinesBelow(lines, n)
    ensures MarksBelow(Lined(lines), n)
    decreases |lines|
  {
    if lines != [] {
      LinedMarks(lines[..|lines| - 1], n);
      assert MarksBelow(lines[|lines| - 1], n);
    }
  }

  const EQUATIONS := ["equation", "equation*", "displaymath"]

  const ALIGNED_AT := ["alignedat", "alignat", "alignat*"]

  const ALIGNED := ["aligned", "align", "align*", "gather", "gathered", "multline", "multline*", "split"]

  const MATRICES := ["array", "matrix", "smallmatrix", "pmatrix", "bmatrix", "Bmatrix", "vmatrix", "Vmatrix"]

  /** Where the group ends that has this many braces open at `k`; a backslash and what follows it are passed
      over. */
  function GroupEnd(s: string, k: nat, depth: nat): Option<nat>
    decreases |s| - k
  {
    if k >= |s| then None
    else if s[k] == '\\' then GroupEnd(s, k + 2, depth)
    else if s[k] == '}' then (if depth <= 1 then Some(k) else GroupEnd(s, k + 1, depth - 1))
    else GroupEnd(s, k + 1, if s[k] == '{' then depth + 1 else depth)
  }

  /** Braces opened in a text and not closed there; None once more are closed than opened. */
  function Open(s: string, depth: nat): Option<nat>
    decreases |s|
  {
    if s == [] then Some(depth)
    else if s[0] == '\\' then Open(if |s| == 1 then [] else s[2..], depth)
    else if s[0] == '}' then (if depth == 0 then None else Open(s[1..], depth - 1))
    else Open(s[1..], if s[0] == '{' then depth + 1 else depth)
  }

  /** The group begins at `start` and `end` is past its closing brace: inside, braces are balanced. */
  predicate RawGroup(s: string, start: nat, end: nat) {
    start < end <= |s| && s[end - 1] == '}' && Open(s[start..end - 1], 0) == Some(0)
  }

  lemma {:induction false} GroupIsBalanced(s: string, k: nat, depth: nat)
    requires depth > 0 && GroupEnd(s, k, depth).Some?
    ensures var end := GroupEnd(s, k, depth).value;
            k <= end < |s| && s[end] == '}' && Open(s[k..end], depth - 1) == Some(0)
    decreases |s| - k
  {
    if s[k] == '\\' {
      GroupIsBalanced(s, k + 2, depth);
      var end := GroupEnd(s, k, depth).value;
      assert s[k..end][2..] == s[k + 2..end];
    } else if s[k] != '}' || depth > 1 {
      var next := if s[k] == '}' then depth - 1 else if s[k] == '{' then depth + 1 else depth;
      GroupIsBalanced(s, k + 1, next);
      var end := GroupEnd(s, k, depth).value;
      assert s[k..end][1..] == s[k + 1..end];
    }
  }

  /** The first place from `k` on without a blank or tab. */
  function FirstSolid(s: string, k: nat): (at: nat)
    ensures k <= at
    decreases |s| - k
  {
    if k < |s| && SpaceOrTab(s[k]) then FirstSolid(s, k + 1) else k
  }

  lemma {:induction false} SolidIs(s: string, k: nat, at: nat)
    requires k <= at <= |s| && forall i :: k <= i < at ==> SpaceOrTab(s[i])
    requires at < |s| ==> !SpaceOrTab(s[at])
    ensures FirstSolid(s, k) == at
    decreases at - k
  {
    if k < at {
      SolidIs(s, k + 1, at);
    }
  }

  class LatexParser {
    const source: string
    const list: NodeList
    const display: bool
    var position: nat
    var supported: bool
    var stackFractions: bool

    constructor (source: string, list: NodeList, display: bool)
      ensures this.source == source && this.list == list && this.display == display
      ensures position == 0 && supported && stackFractions
    {
      this.source, this.list, this.display := source, list, display;
      position, supported, stackFractions := 0, true, true;
    }

    /** The cursor is in the source and the nodes so far are in order. */
    ghost predicate Valid()
      reads this, list
    {
      position <= |source| && Postorder(list.nodes)
    }

    /** The cursor has not gone back, a formula that was given up stays given up, nodes have only been added,
        and `result` only has markers of nodes that are in the list. */
    twostate predicate Parsed(result: Text)
      reads this, list
    {
      && Valid() && old(position) <= position && (supported ==> old(supported))
      && Kept(old(list.nodes), list.nodes, display) && MarksBelow(result, |list.nodes|)
    }

    method Render() returns (rendered: Option<Text>)
      requires Valid()
      modifies this, list
      ensures Parsed(if rendered.Some? then rendered.value else [])
      ensures rendered.Some? <==> supported
      ensures rendered.Some? ==> position == |source|
      decreases |source|, |source| - position, 5
    {
      var result := ParseSequence(None);
      assert supported ==> position == |source|;
      if !supported || position != |source| {
        return None;
      }
      result := Rework(result);
      return Some(result);
    }

    method ParseSequence(ending: Option<char>) returns (result: Text)
      requires Valid()
      modifies this, list
      ensures Parsed(result)
      ensures supported ==> if ending.None? then position == |source|
                            else old(position) < position && source[position - 1] == ending.value
      decreases |source|, |source| - position, 4
    {
      result := [];
      ghost var count := |list.nodes|;
      while position < |source|
        invariant Parsed(result) && count <= |list.nodes|
        decreases |source| - position
      {
        var c := source[position];
        if ending == Some(c) {
          position := position + 1;
          return;
        }
        if c == '}' {
          supported := false;
          return;
        }
        result := ParseItem(c, result);
      }
      if ending.Some? {
        supported := false;
      }
    }

    /** One turn of the loop: the character at the cursor and what belongs to it. */
    method ParseItem(c: char, before: Text) returns (result: Text)
      requires Valid() && position < |source| && c == source[position] && MarksBelow(before, |list.nodes|)
      modifies this, list
      ensures Parsed(result) && old(position) < position
      decreases |source|, |source| - position, 2
    {
      ghost var count := |list.nodes|;
      if c == '{' {
        position := position + 1;
        var inner := ParseSequence(Some('}'));
        JoinMarks(before, inner, count, |list.nodes|);
        result := before + inner;
      } else if c == '\\' {
        var command, negative := ParseCommand();
        if negative {
          TrimMarks(before, count);
          result := TrimEnd(before);
        } else {
          JoinMarks(before, command, count, |list.nodes|);
          result := before + command;
        }
      } else if c == '^' || c == '_' {
        position := position + 1;
        TrimMarks(before, count);
        var argument := ParseRequiredArgument(false);
        var script := Rework(argument);
        JoinMarks(TrimEnd(before), script, count, |list.nodes|);
        result := TrimEnd(before) + script;
      } else {
        result := ParsePlain(c, before);
      }
    }

    /** A character that stands for itself or for space. */
    method ParsePlain(c: char, before: Text) returns (result: Text)
      requires Valid() && position < |source| && c == source[position] && MarksBelow(before, |list.nodes|)
      modifies this, list
      ensures Parsed(result) && old(position) < position
    {
      if Space(c) {
        SkipSpace();
        result := before + [Blank];
      } else if c == '=' || c == '<' || c == '>' {
        TrimMarks(before, |list.nodes|);
        result := TrimEnd(before) + [Blank, Char(c), Blank];
        position := position + 1;
      } else if c == '&' {
        position := position + 1;
        result := before;
      } else if c == '~' {
        position := position + 1;
        result := before + [Blank];
      } else {
        position := position + 1;
        if c == '.' && before != [] && before[|before| - 1].Mark? {
          var i := before[|before| - 1].node;
          assert before[|before| - 1].node < |list.nodes|;
          if list.nodes[i].Matrix? {
            AppendToLastRow(i, c);
            result := before;
            return;
          }
        }
        result := before + [Char(c)];
      }
    }

    /** A full stop after a matrix goes to the matrix's last row. */
    method AppendToLastRow(i: nat, c: char)
      requires Valid() && i < |list.nodes| && list.nodes[i].Matrix?
      modifies list
      ensures Valid() && |list.nodes| == |old(list.nodes)|
      ensures list.nodes[i] == Matrix(old(list.nodes[i].rows[..|list.nodes[i].rows| - 1]
                                          + [list.nodes[i].rows[|list.nodes[i].rows| - 1] + [Char(c)]]))
      ensures forall j :: 0 <= j < |list.nodes| && j != i ==> list.nodes[j] == old(list.nodes[j])
    {
      assert NodePostorder(list.nodes[i], i);
      var rows := list.nodes[i].rows;
      var last := |rows| - 1;
      ghost var before := list.nodes;
      list.nodes := list.nodes[i := Matrix(rows[..last] + [rows[last] + [Char(c)]])];
      forall j | 0 <= j < |list.nodes| ensures NodePostorder(list.nodes[j], j) {
        assert NodePostorder(before[j], j);
      }
    }

    method SkipSpace()
      requires Valid() && position < |source| && Space(source[position])
      modifies this`position
      ensures Valid() && old(position) < position
    {
      position := position + 1;
      SkipSpaces();
    }

    method SkipSpaces()
      requires Valid()
      modifies this`position
      ensures Valid() && old(position) <= position
    {
      while position < |source| && Space(source[position])
        invariant old(position) <= position <= |source|
      {
        position := position + 1;
      }
    }

    /** The name after a backslash: letters, or one other character. */
    method ReadName() returns (name: string)
      requires position < |source|
      modifies this`position
      ensures old(position) < position <= |source| && name == source[old(position)..position]
    {
      var start := position;
      position := position + 1;
      if Letter(source[start]) {
        while position < |source| && Letter(source[position])
          invariant start < position <= |source|
        {
          position := position + 1;
        }
      }
      name := source[start..position];
    }

    method ParseCommand() returns (result: Text, negative: bool)
      requires Valid() && position < |source|
      modifies this, list
      ensures Parsed(result) && old(position) < position
      decreases |source|, |source| - position, 0
    {
      negative, result := false, [];
      position := position + 1;
      if position >= |source| {
        supported := false;
        return;
      }
      if source[position] == '\n' || source[position] == '\r' {
        var returned := source[position] == '\r';
        position := position + 1;
        if returned && position < |source| && source[position] == '\n' {
          position := position + 1;
        }
        result := [Blank];
        return;
      }
      var name := ReadName();
      if name == "\\" {
        result := [Char('\n')];
      } else if name == "frac" || name == "dfrac" || name == "tfrac" {
        result := ParseFraction(name != "tfrac");
      } else if name == "sqrt" {
        result := ParseRoot();
      } else if name == "operatorname" {
        var starred := position < |source| && source[position] == '*';
        if starred {
          position := position + 1;
        }
        var operator := ParseRequiredArgument(true);
        operator := Rework(operator);
        result := ParseOperator(operator, starred);
      } else if name == "left" || name == "middle" || name == "right" {
        if position < |source| && source[position] == '.' {
          position := position + 1;
        }
      } else if name == "begin" {
        result := ParseEnvironment();
      } else if name == "end" {
        supported := false;
      } else {
        result, negative := ParseOther(name);
      }
    }

    /** The commands that differ only in their tables: symbols, spacing, wrappers, accents, limits. */
    method ParseOther(name: string) returns (result: Text, negative: bool)
      requires Valid() && 0 < position
      modifies this, list
      ensures Parsed(result)
      decreases |source|, |source| - position, 4
    {
      negative, result := false, [];
      var kind: Kind := *;
      match kind {
        case Symbol =>
          result := Rework([]);
        case Negative =>
          negative := true;
        case Nested =>
          result := ParseRequiredArgument(false);
          result := Rework(result);
        case OneArgument =>
          result := ParseRequiredArgument(true);
          result := Rework(result);
        case TwoArguments =>
          result := ParseRequiredArgument(true);
          ghost var count := |list.nodes|;
          var second := ParseRequiredArgument(true);
          JoinMarks(result, second, count, |list.nodes|);
          result := Rework(result + second);
        case LimitOperator =>
          var operator := Rework([]);
          result := ParseOperator(operator, true);
        case Unknown =>
          supported := false;
          result := AsText("\\" + name);
      }
    }

    /** Both parts are parsed before the fraction gets its number. */
    method ParseFraction(mayStack: bool) returns (result: Text)
      requires Valid() && 0 < position
      modifies this, list
      ensures Parsed(result)
      ensures display && old(stackFractions) && mayStack ==>
                && list.nodes != [] && result == [Mark(|list.nodes| - 1)]
                && list.nodes[|list.nodes| - 1].Fraction? && |old(list.nodes)| < |list.nodes|
      decreases |source|, |source| - position, 4
    {
      var shouldStack := display && stackFractions && mayStack;
      var numerator := ParseRequiredArgument(!shouldStack);
      ghost var count := |list.nodes|;
      var denominator := ParseRequiredArgument(!shouldStack);
      if shouldStack {
        numerator := Rework(numerator);
        denominator := Rework(denominator);
        assert MarksBelow(numerator, count);
        result := list.Push(Fraction(numerator, denominator));
      } else {
        JoinMarks(numerator, denominator, count, |list.nodes|);
        result := Rework(numerator + denominator);
      }
    }

    method ParseRoot() returns (result: Text)
      requires Valid() && 0 < position
      modifies this, list
      ensures Parsed(result)
      decreases |source|, |source| - position, 4
    {
      var degree := ParseOptionalArgument();
      ghost var count := |list.nodes|;
      var value := ParseRequiredArgument(true);
      JoinMarks(if degree.Some? then degree.value else [], value, count, |list.nodes|);
      result := Rework((if degree.Some? then degree.value else []) + value);
    }

    method SkipSpacesAndTabs(from: nat) returns (at: nat)
      requires from <= |source|
      ensures from <= at <= |source| && forall k :: from <= k < at ==> SpaceOrTab(source[k])
      ensures at < |source| ==> !SpaceOrTab(source[at])
    {
      at := from;
      while at < |source| && SpaceOrTab(source[at])
        invariant from <= at <= |source| && forall k :: from <= k < at ==> SpaceOrTab(source[k])
      {
        at := at + 1;
      }
    }

    /** An argument in brackets, parsed on its own. */
    method ParseOptionalArgument() returns (value: Option<Text>)
      requires Valid()
      modifies this`position, this`supported, list
      ensures Parsed(if value.Some? then value.value else [])
      decreases |source|, |source| - position, 1
    {
      position := SkipSpacesAndTabs(position);
      if position >= |source| || source[position] != '[' {
        return None;
      }
      var end := IndexOf(source, "]", position + 1);
      if end.None? {
        supported := false;
        return None;
      }
      var inner := source[position + 1..end.value];
      position := end.value + 1;
      var rendered := RenderNested(inner, true);
      value := Some(rendered);
    }

    /** `\limits` or `\nolimits` at the given place, and no longer name. */
    method ReadModifier(at: nat) returns (modifier: Option<bool>)
      requires at <= |source|
      ensures modifier.Some? ==> at + (if modifier.value then 7 else 9) <= |source|
    {
      if StartsAt(source, "\\limits", at) && !(at + 7 < |source| && Letter(source[at + 7])) {
        return Some(true);
      }
      if StartsAt(source, "\\nolimits", at) && !(at + 9 < |source| && Letter(source[at + 9])) {
        return Some(false);
      }
      modifier := None;
    }

    /** An operator with the scripts that follow it; it becomes a node if they go above and below. */
    method ParseOperator(operator: Text, displayLimits: bool) returns (result: Text)
      requires Valid() && 0 < position && MarksBelow(operator, |list.nodes|)
      modifies this, list
      ensures Parsed(result)
      decreases |source|, |source| - position, 3
    {
      var useDisplayLimits := displayLimits;
      var modifierPosition := SkipSpacesAndTabs(position);
      var modifier := ReadModifier(modifierPosition);
      if modifier.Some? {
        useDisplayLimits := modifier.value;
        position := modifierPosition + if modifier.value then 7 else 9;
      }
      var lower, upper := ParseScripts();
      MoreNodes(operator, |old(list.nodes)|, |list.nodes|);
      if display && useDisplayLimits && (lower.Some? || upper.Some?) {
        result := list.Push(Operator(operator, lower, upper));
      } else {
        result := Rework(operator + OrEmpty(lower) + OrEmpty(upper));
      }
    }

    /** The scripts of an operator; with two of a kind the formula is given up. */
    method ParseScripts() returns (lower: Option<Text>, upper: Option<Text>)
      requires Valid() && 0 < position
      modifies this, list
      ensures Parsed(OrEmpty(lower)) && MarksBelow(OrEmpty(upper), |list.nodes|)
      decreases |source|, |source| - position, 2
    {
      hide Bare;
      lower, upper := None, None;
      var script := ReadScript();
      while script.Some?
        invariant Parsed(OrEmpty(lower)) && MarksBelow(OrEmpty(upper), |list.nodes|)
        invariant 0 < position && (script.Some? ==> old(position) < position)
        decreases |source| - position, if script.Some? then 1 else 0
      {
        ghost var count := |list.nodes|;
        var value := ParseScript();
        MoreNodes(OrEmpty(lower), count, |list.nodes|);
        MoreNodes(OrEmpty(upper), count, |list.nodes|);
        if (if script == Some('_') then lower else upper).Some? {
          supported := false;
        }
        if script == Some('_') {
          lower := Some(value);
        } else {
          upper := Some(value);
        }
        script := ReadScript();
      }
    }

    /** Which script comes next, if any; the cursor moves past its mark. */
    method ReadScript() returns (script: Option<char>)
      requires Valid()
      modifies this`position
      ensures Valid() && old(position) <= position
      ensures var at := FirstSolid(source, old(position));
              if at < |source| && (source[at] == '_' || source[at] == '^') then script == Some(source[at]) && position == at + 1
              else script.None? && position == old(position)
    {
      var at := SkipSpacesAndTabs(position);
      SolidIs(source, position, at);
      if at < |source| && (source[at] == '_' || source[at] == '^') {
        script := Some(source[at]);
        position := at + 1;
      } else {
        script := None;
      }
    }

    method ParseScript() returns (value: Text)
      requires Valid() && 0 < position
      modifies this, list
      ensures Parsed(value)
      decreases |source|, |source| - position, 4
    {
      value := ParseRequiredArgument(false);
      value := Rework(value);
    }

    method ParseRequiredArgument(stack: bool) returns (value: Text)
      requires Valid()
      modifies this, list
      ensures Parsed(value) && stackFractions == old(stackFractions)
      decreases |source|, |source| - position, 3
    {
      var previous := stackFractions;
      stackFractions := previous && stack;
      value := ParseArgumentValue();
      stackFractions := previous;
    }

    method ParseArgumentValue() returns (value: Text)
      requires Valid()
      modifies this, list
      ensures Parsed(value)
      decreases |source|, |source| - position, 2
    {
      SkipSpaces();
      if position >= |source| {
        supported := false;
        return [];
      }
      var c := source[position];
      if c == '{' {
        position := position + 1;
        value := ParseSequence(Some('}'));
      } else if c == '\\' {
        value := ParseArgumentCommand();
      } else {
        value := [Char(c)];
        position := position + 1;
      }
    }

    method ParseArgumentCommand() returns (value: Text)
      requires Valid() && position < |source|
      modifies this, list
      ensures Parsed(value)
      decreases |source|, |source| - position, 1
    {
      var negative;
      value, negative := ParseCommand();
      if negative {
        value := [Char('\0')];
      }
    }

    /** What stands between braces, as it is written; without it the formula is given up. */
    method ReadRawGroup() returns (group: Option<string>)
      requires Valid()
      modifies this`position, this`supported
      ensures Valid() && old(position) <= position && (supported <==> old(supported) && group.Some?)
      ensures group.Some? ==>
                exists start :: old(position) < start && RawGroup(source, start, position) && group.value == source[start..position - 1]
                                && source[start - 1] == '{'
                                && forall k :: old(position) <= k < start - 1 ==> SpaceOrTab(source[k])
      ensures group.None? ==>
                var start := FirstSolid(source, old(position));
                start < |source| && source[start] == '{' ==> GroupEnd(source, start + 1, 1).None?
    {
      position := SkipSpacesAndTabs(position);
      SolidIs(source, old(position), position);
      if position >= |source| || source[position] != '{' {
        supported := false;
        return None;
      }
      position := position + 1;
      var start, depth := position, 1;
      while position < |source|
        invariant old(position) < start <= position <= |source| && depth > 0
        invariant GroupEnd(source, start, 1) == GroupEnd(source, position, depth) && supported == old(supported)
        decreases |source| - position
      {
        var c := source[position];
        if c == '\\' {
          // One past the end is as good as the end: nothing is supported any more.
          position := if position + 2 <= |source| then position + 2 else |source|;
          continue;
        }
        if c == '{' {
          depth := depth + 1;
        }
        if c == '}' {
          depth := depth - 1;
        }
        if depth == 0 {
          group := Some(source[start..position]);
          position := position + 1;
          GroupIsBalanced(source, start, 1);
          assert RawGroup(source, start, position);
          return;
        }
        position := position + 1;
      }
      supported := false;
      group := None;
    }

    /** An environment: its rows and cells are parsed by parsers of their own, which share the nodes. */
    method ParseEnvironment() returns (result: Text)
      requires Valid() && 0 < position
      modifies this, list
      ensures Parsed(result)
      decreases |source|, |source| - position, 2
    {
      var group := ReadRawGroup();
      if group.None? || group.value == "" {
        return [];
      }
      var environment := group.value;
      var endMarker := "\\end{" + environment + "}";
      var end := IndexOf(source, endMarker, position);
      if end.None? {
        supported := false;
        return [];
      }
      var body := source[position..end.value];
      position := end.value + |endMarker|;
      if environment in EQUATIONS {
        result := RenderNested(body, true);
        TrimmedMarks(result, |list.nodes|);
        result := Trim(result);
      } else if environment in ALIGNED || environment in ALIGNED_AT {
        result := RenderAligned(body, environment in ALIGNED_AT);
      } else if environment == "cases" || environment == "cases*" {
        result := RenderCases(body);
      } else if environment in MATRICES {
        if environment == "array" {
          body := WithoutGroup(body);
        }
        result := RenderMatrix(environment, body);
      } else {
        supported := false;
        result := AsText(body);
      }
    }

    /** Rows of an alignment one under the other, empty ones left out. */
    method RenderAligned(body: string, paired: bool) returns (result: Text)
      requires Valid() && |body| < |source|
      modifies this`supported, list
      ensures Parsed(result) && position == old(position)
      decreases |source|, 0, 1
    {
      var alignedBody := body;
      if paired {
        alignedBody := WithoutGroup(body);
      }
      var rows := SplitRows(alignedBody);
      result := [];
      for r := 0 to |rows|
        invariant Parsed(result) && position == old(position)
      {
        assert |rows[r]| <= |alignedBody|;
        ghost var count := |list.nodes|;
        var plain := WithoutAlignment(rows[r], paired);
        var line := RenderNested(plain, true);
        TrimmedMarks(line, |list.nodes|);
        line := Trim(line);
        if line != [] {
          JoinMarks(result, if result == [] then [] else [Char('\n')], count, count);
          JoinMarks(result + (if result == [] then [] else [Char('\n')]), line, count, |list.nodes|);
          result := result + (if result == [] then [] else [Char('\n')]) + line;
        }
      }
    }

    /** The cells of all rows that are not empty, trimmed; fractions in them are not stacked. */
    method RenderCells(body: string) returns (rows: seq<seq<Text>>)
      requires Valid() && |body| < |source|
      modifies this`supported, list
      ensures Parsed([]) && position == old(position) && RowsBelow(rows, |list.nodes|)
      decreases |source|, 0, 2
    {
      rows := [];
      var sources := SplitRows(body);
      for r := 0 to |sources|
        invariant Parsed([]) && position == old(position) && RowsBelow(rows, |list.nodes|)
      {
        assert |sources[r]| <= |body|;
        ghost var count := |list.nodes|;
        var row, filled := RenderRow(sources[r]);
        if filled {
          MoreRows(rows, row, count, |list.nodes|);
          rows := rows + [row];
        }
      }
    }

    method RenderRow(source': string) returns (row: seq<Text>, filled: bool)
      requires Valid() && |source'| < |source|
      modifies this`supported, list
      ensures Parsed([]) && position == old(position) && LinesBelow(row, |list.nodes|)
      ensures filled <==> exists c {:trigger row[c]} :: 0 <= c < |row| && row[c] != []
      decreases |source|, 0, 1
    {
      row, filled := [], false;
      var cells := SplitCells(source');
      for c := 0 to |cells|
        invariant Parsed([]) && position == old(position) && LinesBelow(row, |list.nodes|)
        invariant filled <==> exists k {:trigger row[k]} :: 0 <= k < |row| && row[k] != []
      {
        assert |cells[c]| <= |source'|;
        ghost var before := row;
        var cell := RenderNested(cells[c], false);
        TrimmedMarks(cell, |list.nodes|);
        cell := Trim(cell);
        row := row + [cell];
        filled := filled || cell != [];
        assert row[|row| - 1] == cell && forall k :: 0 <= k < |before| ==> row[k] == before[k];
      }
    }

    method RenderCases(body: string) returns (result: Text)
      requires Valid() && |body| < |source|
      modifies this`supported, list
      ensures Parsed(result) && position == old(position)
      decreases |source|, 0, 3
    {
      var rows := RenderCells(body);
      var lines := seq(|rows|, r requires 0 <= r < |rows| => CaseLine(rows[r], r, |rows|));
      forall r | 0 <= r < |rows| ensures MarksBelow(lines[r], |list.nodes|) {
        CaseLineMarks(rows[r], r, |rows|, |list.nodes|);
      }
      LinedMarks(lines, |list.nodes|);
      result := Lined(lines);
    }

    /** A matrix of more than one row becomes a node, pushed after everything its cells mention. */
    method RenderMatrix(environment: string, body: string) returns (result: Text)
      requires Valid() && |body| < |source|
      modifies this`supported, list
      ensures Parsed(result) && position == old(position)
      decreases |source|, 0, 3
    {
      var rows := RenderCells(body);
      var lines := MatrixLines(environment, rows);
      MatrixLinesMarks(environment, rows, |list.nodes|);
      if |lines| <= 1 {
        result := if lines == [] then [] else lines[0];
      } else {
        result := list.Push(Matrix(lines));
      }
    }

    method RenderNested(piece: string, stack: bool) returns (result: Text)
      requires Valid() && |piece| < |source|
      modifies this`supported, list
      ensures Parsed(result) && position == old(position)
      decreases |source|, 0, 0
    {
      var nested := new LatexParser(piece, list, display && stack);
      var rendered := nested.Render();
      if rendered.None? {
        supported := false;
        result := AsText(piece);
      } else {
        result := rendered.value;
      }
    }
  }

  /** Parsing and laying out. It always ends, because parsing only moves forward or to shorter sources and
      every node is numbered after those its text mentions; and the result is a good layout that draws
      every visible item as often as the parsed text and its nodes contain it, and no marker unless an
      operator or a matrix that is drawn holds one. Without display nothing is stacked but matrices. */
  method RenderLatex(source: string, display: bool) returns (layout: Option<Layout>, parsed: Text, nodes: seq<Node>)
    ensures !display ==> forall i {:trigger nodes[i]} :: 0 <= i < |nodes| ==> nodes[i].Matrix?
    ensures layout.Some? ==>
              && Postorder(nodes) && Numbered(nodes) && Mentions(parsed, |nodes|, |nodes|)
              && layout.value == Render(parsed, nodes, |nodes|) && Good(layout.value)
              && (forall x {:trigger Visible(x)} :: Visible(x) ==>
                    CountLines(layout.value.lines, x) == Expanded(parsed, nodes, |nodes|, x))
              && ((forall n :: 0 <= n < |nodes| ==> CountLines(layout.value.lines, Mark(n)) == 0)
                  <==> !Leaks(parsed, nodes, |nodes|))
  {
    var list := new NodeList();
    var parser := new LatexParser(source, list, display);
    var rendered := parser.Render();
    parsed, nodes := [], list.nodes;
    if rendered.None? {
      return None, parsed, nodes;
    }
    parsed := rendered.value;
    PostorderIsNumbered(nodes, parsed);
    var result := RenderLayout(parsed, nodes, |nodes|);
    RenderIsGood(parsed, nodes, |nodes|);
    forall x {:trigger Visible(x)} | Visible(x)
      ensures CountLines(result.lines, x) == Expanded(parsed, nodes, |nodes|, x)
    {
      RenderKeepsInk(parsed, nodes, |nodes|, x);
    }
    NoMarkIsDrawnIff(parsed, nodes, |nodes|);
    return Some(result), parsed, nodes;
  }
}
